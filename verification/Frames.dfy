/** Frames of a packet: how they are written, and s_quic_parse_frames. */
module Frames {
  import opened Bytes
  import opened Varints
  import PacketWindow
  import opened Reassembly

  /** What one encryption level of a connection receives into; `app` is the application level. */
  datatype Rx = Rx(app: bool, flight: PacketWindow.Flight, crypto: Crypto, stream: Stream, closed: bool)

  type Handshake = seq<seq<byte>> -> bool

  datatype Parsed = Parsed(ok: bool, c: Rx)

  // ---------------------------------------------------------------- reading

  datatype Nums = Few | Nums(vs: seq<nat>, n: nat)

  /** The next k varints of s and the bytes they take. */
  function TakeNums(s: seq<byte>, k: nat): (r: Nums)
    ensures r.Nums? ==> |r.vs| == k && r.n <= |s|
  {
    if k == 0 then Nums([], 0) else
      match Decode(s)
      case Short => Few
      case Value(v, n) =>
        match TakeNums(s[n..], k - 1)
        case Few => Few
        case Nums(vs, m) => Nums([v] + vs, n + m)
  }

  /** One frame: an error, the end of the packet, or n bytes taken after the type byte. */
  datatype Step = Bad(c: Rx) | Stop(c: Rx) | More(c: Rx, n: nat)

  ghost predicate Sane(c: Rx) {
    c.crypto.parsed <= |c.crypto.data|
  }

  /** Skips k varints at s[n..]. */
  function SkipNums(c: Rx, s: seq<byte>, n: nat, k: nat): (r: Step)
    requires n <= |s|
    ensures r.More? ==> r.n <= |s|
  {
    match TakeNums(s[n..], k)
    case Few => Bad(c)
    case Nums(_, m) => More(c, n + m)
  }

  /** The first range acts on the flight; further ranges and ECN counts are skipped. */
  function AckStep(c: Rx, ecn: bool, s: seq<byte>): (r: Step)
    ensures r.More? ==> r.n <= |s|
  {
    match TakeNums(s, 4)
    case Few => Bad(c)
    case Nums(vs, n) =>
      SkipNums(c.(flight := PacketWindow.ApplyAck(c.flight, vs[0], vs[3])), s, n, 2 * vs[2] + if ecn then 3 else 0)
  }

  /** The data of a CRYPTO frame at s[n..n + len]; the application level ignores it. */
  function CryptoBody(c: Rx, offset: nat, len: nat, s: seq<byte>, n: nat, accepts: Handshake): (r: Step)
    requires Sane(c) && n <= |s|
    ensures r.More? ==> r.n <= |s|
  {
    if |s| - n < len then Bad(c)
    else if c.app then More(c, n + len)
    else
      var r := CryptoIn(c.crypto, offset, s[n..n + len], accepts);
      if r.ok then More(c.(crypto := r.c), n + len) else Bad(c.(crypto := r.c))
  }

  function CryptoStep(c: Rx, s: seq<byte>, accepts: Handshake): (r: Step)
    requires Sane(c)
    ensures r.More? ==> r.n <= |s|
  {
    match TakeNums(s, 2)
    case Few => Bad(c)
    case Nums(vs, n) => CryptoBody(c, vs[0], vs[1], s, n, accepts)
  }

  /** The data of a STREAM frame at s[n..n + slen]; only stream 0 exists. */
  function StreamBody(c: Rx, fin: bool, sid: nat, offset: nat, slen: nat, s: seq<byte>, n: nat): (r: Step)
    requires n <= |s|
    ensures r.More? ==> r.n <= |s|
  {
    if |s| - n < slen then Bad(c)
    else if sid != 0 then More(c, n + slen)
    else
      var r := StreamIn(c.stream, offset, s[n..n + slen], fin);
      if r.ok then More(c.(stream := r.s), n + slen) else Bad(c.(stream := r.s))
  }

  /** The three low bits of the type say whether an offset and a length follow, and FIN. */
  function StreamStep(c: Rx, t: byte, s: seq<byte>): (r: Step)
    ensures r.More? ==> r.n <= |s|
  {
    var hasOff, hasLen := t / 4 % 2 == 1, t / 2 % 2 == 1;
    match TakeNums(s, 1 + (if hasOff then 1 else 0) + (if hasLen then 1 else 0))
    case Few => Bad(c)
    case Nums(vs, n) =>
      StreamBody(c, t % 2 == 1, vs[0], if hasOff then vs[1] else 0, if hasLen then vs[|vs| - 1] else |s| - n, s, n)
  }

  function FrameStep(c: Rx, t: byte, s: seq<byte>, accepts: Handshake): (r: Step)
    requires Sane(c)
    ensures r.More? ==> r.n <= |s|
    ensures Sane(r.c)
  {
    if t == 0x00 || t == 0x01 || t == 0x1e then More(c, 0)
    else if t == 0x02 || t == 0x03 then AckStep(c, t == 0x03, s)
    else if t == 0x06 then CryptoStep(c, s, accepts)
    else if t / 8 == 1 then StreamStep(c, t, s)
    else if t == 0x1c || t == 0x1d then Stop(c.(closed := true))
    else Bad(c)
  }

  function Parse(c: Rx, s: seq<byte>, accepts: Handshake): (r: Parsed)
    requires Sane(c)
    ensures Sane(r.c)
    decreases |s|
  {
    if s == [] then Parsed(true, c) else
      match FrameStep(c, s[0], s[1..], accepts)
      case Bad(c1) => Parsed(false, c1)
      case Stop(c1) => Parsed(true, c1)
      case More(c1, n) => Parse(c1, s[1 + n..], accepts)
  }

  // ---------------------------------------------------------------- the code

  method GetNum(p: seq<byte>, pos: nat, ghost s: seq<byte>, ghost k: nat) returns (got: bool, v: nat, next: nat)
    requires pos <= |p| && s == p[pos..] && k > 0
    ensures !got ==> TakeNums(s, k) == Few
    ensures got ==> pos < next <= |p| && TakeNums(s, k) == Prepend([v], next - pos, TakeNums(p[next..], k - 1))
  {
    TakeUnfold(s, k);
    assert p[pos..|p|] == s;
    got, v, next := GetVarint(p, pos, |p|);
    if got {
      DropDrop(p, pos, next - pos);
    }
  }

  method GetNums(p: seq<byte>, pos: nat, k: nat) returns (ok: bool, vs: seq<nat>, next: nat)
    requires pos <= |p|
    ensures ok <==> TakeNums(p[pos..], k).Nums?
    ensures ok ==> pos <= next <= |p| && TakeNums(p[pos..], k) == Nums(vs, next - pos)
  {
    vs, next := [], pos;
    ghost var whole, rest := TakeNums(p[pos..], k), TakeNums(p[pos..], k);
    var i := 0;
    while i < k
      invariant i <= k && pos <= next <= |p| && |vs| == i
      invariant rest == TakeNums(p[next..], k - i) && whole == Prepend(vs, next - pos, rest)
    {
      var got, v, at := GetNum(p, next, p[next..], k - i);
      if !got {
        return false, vs, next;
      }
      rest := TakeNums(p[at..], k - i - 1);
      PrependStep(vs, next - pos, v, at - next, rest);
      vs, next, i := vs + [v], at, i + 1;
    }
    assert vs + [] == vs;
    return true, vs, next;
  }

  lemma {:induction false} TakeUnfold(s: seq<byte>, k: nat)
    requires k > 0
    ensures TakeNums(s, k) == match Decode(s)
                              case Short => Few
                              case Value(v, n) => Prepend([v], n, TakeNums(s[n..], k - 1))
  {
  }

  function Prepend(vs: seq<nat>, n: nat, r: Nums): Nums {
    match r
    case Few => Few
    case Nums(ws, m) => Nums(vs + ws, n + m)
  }

  lemma {:induction false} PrependStep(vs: seq<nat>, n: nat, v: nat, m: nat, r: Nums)
    ensures Prepend(vs, n, Prepend([v], m, r)) == Prepend(vs + [v], n + m, r)
  {
    if r.Nums? {
      assert vs + ([v] + r.vs) == vs + [v] + r.vs;
    }
  }

  method SkipAll(c: Rx, p: seq<byte>, off: nat, at: nat, k: nat) returns (r: Step)
    requires off <= at <= |p|
    ensures r == SkipNums(c, p[off..], at - off, k)
  {
    DropDrop(p, off, at - off);
    var more, _, next := GetNums(p, at, k);
    return if more then More(c, next - off) else Bad(c);
  }

  method ReadAck(c: Rx, p: seq<byte>, off: nat, ecn: bool) returns (r: Step)
    requires off <= |p|
    ensures r == AckStep(c, ecn, p[off..])
  {
    var ok, vs, at := GetNums(p, off, 4);
    if !ok {
      return Bad(c);
    }
    var c1 := c.(flight := PacketWindow.ApplyAck(c.flight, vs[0], vs[3]));
    r := SkipAll(c1, p, off, at, 2 * vs[2] + if ecn then 3 else 0);
  }

  method ReadCryptoBody(c: Rx, offset: nat, len: nat, p: seq<byte>, off: nat, at: nat, accepts: Handshake) returns (r: Step)
    requires off <= at <= |p| && Sane(c)
    ensures r == CryptoBody(c, offset, len, p[off..], at - off, accepts)
  {
    if |p| - at < len {
      return Bad(c);
    }
    var next := at + len;
    if c.app {
      return More(c, next - off);
    }
    DropSlice(p, off, at - off, next - off);
    var x := CryptoIn(c.crypto, offset, p[at..next], accepts);
    return if x.ok then More(c.(crypto := x.c), next - off) else Bad(c.(crypto := x.c));
  }

  method ReadCrypto(c: Rx, p: seq<byte>, off: nat, accepts: Handshake) returns (r: Step)
    requires off <= |p| && Sane(c)
    ensures r == CryptoStep(c, p[off..], accepts)
  {
    var ok, vs, at := GetNums(p, off, 2);
    if !ok {
      return Bad(c);
    }
    r := ReadCryptoBody(c, vs[0], vs[1], p, off, at, accepts);
  }

  method ReadBody(c: Rx, fin: bool, sid: nat, offset: nat, slen: nat, p: seq<byte>, off: nat, at: nat) returns (r: Step)
    requires off <= at <= |p|
    ensures r == StreamBody(c, fin, sid, offset, slen, p[off..], at - off)
  {
    if |p| - at < slen {
      return Bad(c);
    }
    var next := at + slen;
    if sid != 0 {
      return More(c, next - off);
    }
    DropSlice(p, off, at - off, next - off);
    var x := StreamIn(c.stream, offset, p[at..next], fin);
    return if x.ok then More(c.(stream := x.s), next - off) else Bad(c.(stream := x.s));
  }

  method ReadStream(c: Rx, t: byte, p: seq<byte>, off: nat) returns (r: Step)
    requires off <= |p|
    ensures r == StreamStep(c, t, p[off..])
  {
    var hasOff, hasLen := t / 4 % 2 == 1, t / 2 % 2 == 1;
    var ok, vs, at := GetNums(p, off, 1 + (if hasOff then 1 else 0) + (if hasLen then 1 else 0));
    if !ok {
      return Bad(c);
    }
    r := ReadBody(c, t % 2 == 1, vs[0], if hasOff then vs[1] else 0, if hasLen then vs[|vs| - 1] else |p| - at, p, off, at);
  }

  method ReadFrame(c: Rx, t: byte, p: seq<byte>, off: nat, accepts: Handshake) returns (r: Step)
    requires off <= |p| && Sane(c)
    ensures r == FrameStep(c, t, p[off..], accepts)
  {
    if t == 0x00 || t == 0x01 || t == 0x1e {
      return More(c, 0);
    } else if t == 0x02 || t == 0x03 {
      r := ReadAck(c, p, off, t == 0x03);
    } else if t == 0x06 {
      r := ReadCrypto(c, p, off, accepts);
    } else if t / 8 == 1 {
      r := ReadStream(c, t, p, off);
    } else if t == 0x1c || t == 0x1d {
      return Stop(c.(closed := true));
    } else {
      return Bad(c);
    }
  }

  /** One round of the parsing loop. */
  lemma {:induction false} ParseBy(c: Rx, s: seq<byte>, r: Step, accepts: Handshake)
    requires Sane(c) && s != [] && r == FrameStep(c, s[0], s[1..], accepts)
    ensures Parse(c, s, accepts) == match r
                                    case Bad(c1) => Parsed(false, c1)
                                    case Stop(c1) => Parsed(true, c1)
                                    case More(c1, n) => Parse(c1, s[1 + n..], accepts)
  {
  }

  method ParseOne(c: Rx, p: seq<byte>, off: nat, ghost s: seq<byte>, accepts: Handshake) returns (r: Step)
    requires Sane(c) && off < |p| && s == p[off..]
    ensures Sane(r.c)
    ensures r.More? ==> 1 + r.n <= |s| && s[1 + r.n..] == p[off + 1 + r.n..]
    ensures Parse(c, s, accepts) == match r
                                    case Bad(c1) => Parsed(false, c1)
                                    case Stop(c1) => Parsed(true, c1)
                                    case More(c1, n) => Parse(c1, s[1 + n..], accepts)
  {
    DropDrop(p, off, 1);
    r := ReadFrame(c, p[off], p, off + 1, accepts);
    ParseBy(c, s, r, accepts);
    if r.More? {
      DropDrop(p, off, 1 + r.n);
    }
  }

  method ParseFrames(c: Rx, p: seq<byte>, accepts: Handshake) returns (ok: bool, c': Rx)
    requires Sane(c)
    ensures Sane(c') && Parsed(ok, c') == Parse(c, p, accepts)
  {
    var off := 0;
    c' := c;
    ghost var whole, s := Parse(c, p, accepts), p;
    while off < |p|
      invariant off <= |p| && Sane(c') && s == p[off..] && Parse(c', s, accepts) == whole
      decreases |p| - off
    {
      var r := ParseOne(c', p, off, s, accepts);
      c' := r.c;
      if !r.More? {
        return r.Stop?, c';
      }
      s := s[1 + r.n..];
      off := off + 1 + r.n;
    }
    return true, c';
  }

  // ---------------------------------------------------------------- writing

  /**
   The frames this side sends, and those it does not send but a peer may: an ACK with further
   ranges and ECN counts, and a STREAM frame of any stream, without an offset, or with FIN.
   */
  datatype Frame =
    | Padding
    | Ping
    | HandshakeDone
    | CloseFrame
    | AckFrame(largest: nat, first: nat)
    | CryptoFrame(offset: nat, d: seq<byte>)
    | StreamFrame(offset: nat, d: seq<byte>)
    | AckRanges(largest: nat, delay: nat, first: nat, ranges: seq<(nat, nat)>, ecn: seq<nat>)
    | AnyStream(sid: nat, offset: nat, fin: bool, d: seq<byte>)

  ghost predicate Encodable(f: Frame) {
    match f
    case AckFrame(l, n) => l < TWO_62 && n < TWO_62
    case CryptoFrame(o, d) => o < TWO_62 && |d| < TWO_62
    case StreamFrame(o, d) => o < TWO_62 && |d| < TWO_62
    case AckRanges(l, w, n, r, e) =>
      && l < TWO_62 && w < TWO_62 && n < TWO_62 && |r| < TWO_62 && (|e| == 0 || |e| == 3)
      && AllSmall(Flat(r)) && AllSmall(e)
    case AnyStream(i, o, _, d) => i < TWO_62 && o < TWO_62 && |d| < TWO_62
    case Padding => true
    case Ping => true
    case HandshakeDone => true
    case CloseFrame => true
  }

  ghost predicate AllSmall(vs: seq<nat>) {
    forall i :: 0 <= i < |vs| ==> vs[i] < TWO_62
  }

  /** The gaps and lengths of the ranges, as numbers in a row. */
  function Flat(r: seq<(nat, nat)>): (vs: seq<nat>)
    ensures |vs| == 2 * |r|
  {
    if r == [] then [] else [r[0].0, r[0].1] + Flat(r[1..])
  }

  /** The numbers of a STREAM frame with a length; an offset of zero may be left out. */
  function StreamNums(sid: nat, offset: nat, len: nat): seq<nat> {
    if offset == 0 then [sid, len] else [sid, offset, len]
  }

  /** The type of a STREAM frame: 4 for an offset, 2 for a length, 1 for FIN. */
  function StreamType(hasOff: bool, hasLen: bool, fin: bool): (t: byte)
    ensures t / 8 == 1 && (t / 4 % 2 == 1 <==> hasOff) && (t / 2 % 2 == 1 <==> hasLen) && (t % 2 == 1 <==> fin)
  {
    8 + (if hasOff then 4 else 0) + (if hasLen then 2 else 0) + if fin then 1 else 0
  }

  function EncodeAll(vs: seq<nat>): seq<byte> {
    if vs == [] then [] else Encode(vs[0]) + EncodeAll(vs[1..])
  }

  function TypeOf(f: Frame): byte {
    match f
    case Padding => 0x00
    case Ping => 0x01
    case HandshakeDone => 0x1e
    case CloseFrame => 0x1c
    case AckFrame(_, _) => 0x02
    case CryptoFrame(_, _) => 0x06
    case StreamFrame(_, _) => 0x0e
    case AckRanges(_, _, _, _, e) => if e == [] then 0x02 else 0x03
    case AnyStream(_, o, fin, _) => StreamType(o != 0, true, fin)
  }

  /** The bytes behind the type byte. */
  function BodyOf(f: Frame): seq<byte> {
    match f
    case Padding => []
    case Ping => []
    case HandshakeDone => []
    case CloseFrame => [0x00, 0x00, 0x00]
    case AckFrame(l, n) => EncodeAll([l, 0, 0, n])
    case CryptoFrame(o, d) => EncodeAll([o, |d|]) + d
    case StreamFrame(o, d) => EncodeAll([0, o, |d|]) + d
    case AckRanges(l, w, n, r, e) => EncodeAll([l, w, |r|, n]) + EncodeAll(Flat(r) + e)
    case AnyStream(i, o, _, d) => EncodeAll(StreamNums(i, o, |d|)) + d
  }

  function FrameBytes(f: Frame): seq<byte> {
    [TypeOf(f)] + BodyOf(f)
  }

  function PacketBytes(fs: seq<Frame>): seq<byte> {
    if fs == [] then [] else FrameBytes(fs[0]) + PacketBytes(fs[1..])
  }

  /** What a frame is meant to do to the other side. */
  function Effect(c: Rx, f: Frame, accepts: Handshake): (r: Parsed)
    requires Sane(c)
    ensures Sane(r.c)
  {
    match f
    case AckFrame(l, n) => Parsed(true, c.(flight := PacketWindow.ApplyAck(c.flight, l, n)))
    case CryptoFrame(o, d) =>
      if c.app then Parsed(true, c) else
        var r := CryptoIn(c.crypto, o, d, accepts); Parsed(r.ok, c.(crypto := r.c))
    case StreamFrame(o, d) => var r := StreamIn(c.stream, o, d, false); Parsed(r.ok, c.(stream := r.s))
    case AckRanges(l, _, n, _, _) => Parsed(true, c.(flight := PacketWindow.ApplyAck(c.flight, l, n)))
    case AnyStream(i, o, fin, d) =>
      if i != 0 then Parsed(true, c) else
        var r := StreamIn(c.stream, o, d, fin); Parsed(r.ok, c.(stream := r.s))
    case Padding => Parsed(true, c)
    case Ping => Parsed(true, c)
    case HandshakeDone => Parsed(true, c)
    case CloseFrame => Parsed(true, c.(closed := true))
  }

  /** The frames of a packet in order, up to one that is refused or closes the connection. */
  function Effects(c: Rx, fs: seq<Frame>, accepts: Handshake): (r: Parsed)
    requires Sane(c)
    ensures Sane(r.c)
    decreases |fs|
  {
    if fs == [] then Parsed(true, c) else
      var r := Effect(c, fs[0], accepts);
      if r.ok && !fs[0].CloseFrame? then Effects(r.c, fs[1..], accepts) else r
  }

  // ---------------------------------------------------------------- the round trip

  lemma {:induction false} TakeEncoded(vs: seq<nat>, rest: seq<byte>)
    requires AllSmall(vs)
    ensures TakeNums(EncodeAll(vs) + rest, |vs|) == Nums(vs, |EncodeAll(vs)|)
  {
    if vs != [] {
      TakeEncoded(vs[1..], rest);
      TakeFirst(vs, rest);
    }
  }

  lemma {:induction false} TakeFirst(vs: seq<nat>, rest: seq<byte>)
    requires vs != [] && AllSmall(vs)
    requires TakeNums(EncodeAll(vs[1..]) + rest, |vs| - 1) == Nums(vs[1..], |EncodeAll(vs[1..])|)
    ensures TakeNums(EncodeAll(vs) + rest, |vs|) == Nums(vs, |EncodeAll(vs)|)
  {
    var e, tail := Encode(vs[0]), EncodeAll(vs[1..]);
    EncodedFront(vs[0], tail + rest);
    Assoc(e, tail, rest);
    TakeMore(e + (tail + rest), vs[0], |e|, vs[1..], |tail|);
    assert [vs[0]] + vs[1..] == vs;
  }

  lemma {:induction false} EncodedFront(v: nat, s: seq<byte>)
    requires v < TWO_62
    ensures Decode(Encode(v) + s) == Value(v, |Encode(v)|) && (Encode(v) + s)[|Encode(v)|..] == s
  {
    DecodeEncode(v, s);
    FrontBack(Encode(v), s);
  }

  lemma {:induction false} Assoc(a: seq<byte>, b: seq<byte>, c: seq<byte>)
    ensures a + b + c == a + (b + c)
  {
  }

  lemma {:induction false} TakeMore(s: seq<byte>, v: nat, n: nat, ws: seq<nat>, m: nat)
    requires Decode(s) == Value(v, n) && TakeNums(s[n..], |ws|) == Nums(ws, m)
    ensures TakeNums(s, |ws| + 1) == Nums([v] + ws, n + m)
  {
  }

  lemma {:induction false} AckParses(c: Rx, l: nat, n: nat, rest: seq<byte>)
    requires l < TWO_62 && n < TWO_62
    ensures AckStep(c, false, EncodeAll([l, 0, 0, n]) + rest) == More(c.(flight := PacketWindow.ApplyAck(c.flight, l, n)), |EncodeAll([l, 0, 0, n])|)
  {
    var e := EncodeAll([l, 0, 0, n]);
    TakeEncoded([l, 0, 0, n], rest);
    assert (e + rest)[|e|..] == rest;
    assert TakeNums(rest, 0) == Nums([], 0);
  }

  lemma {:induction false} CutData(e: seq<byte>, d: seq<byte>, rest: seq<byte>)
    ensures (e + d + rest)[|e|..|e| + |d|] == d && e + d + rest == e + (d + rest) && |e + d + rest| == |e| + |d| + |rest|
  {
  }

  lemma {:induction false} CryptoParses(c: Rx, o: nat, d: seq<byte>, rest: seq<byte>, accepts: Handshake)
    requires Sane(c) && o < TWO_62 && |d| < TWO_62
    ensures var r, s := Effect(c, CryptoFrame(o, d), accepts), EncodeAll([o, |d|]) + d;
      CryptoStep(c, s + rest, accepts) == if r.ok then More(r.c, |s|) else Bad(r.c)
  {
    var e := EncodeAll([o, |d|]);
    TakeEncoded([o, |d|], d + rest);
    CutData(e, d, rest);
  }

  lemma {:induction false} StreamParses(c: Rx, o: nat, d: seq<byte>, rest: seq<byte>, accepts: Handshake)
    requires Sane(c) && o < TWO_62 && |d| < TWO_62
    ensures var r, s := Effect(c, StreamFrame(o, d), accepts), EncodeAll([0, o, |d|]) + d;
      StreamStep(c, 0x0e, s + rest) == if r.ok then More(r.c, |s|) else Bad(r.c)
  {
    var e := EncodeAll([0, o, |d|]);
    TakeEncoded([0, o, |d|], d + rest);
    CutData(e, d, rest);
    StreamBy(c, e + d + rest, o, |d|, |e|);
  }

  /** A STREAM frame of type 0x0e has an offset and a length. */
  lemma {:induction false} StreamBy(c: Rx, s: seq<byte>, o: nat, len: nat, n: nat)
    requires TakeNums(s, 3) == Nums([0, o, len], n)
    ensures StreamStep(c, 0x0e, s) == StreamBody(c, false, 0, o, len, s, n)
  {
    assert 0x0e / 4 % 2 == 1 && 0x0e / 2 % 2 == 1 && 0x0e % 2 == 0;
  }

  lemma {:induction false} AckRangesParse(c: Rx, l: nat, w: nat, n: nat, r: seq<(nat, nat)>, e: seq<nat>, rest: seq<byte>, accepts: Handshake)
    requires Sane(c) && Encodable(AckRanges(l, w, n, r, e))
    ensures var s := EncodeAll([l, w, |r|, n]) + EncodeAll(Flat(r) + e);
      AckStep(c, e != [], s + rest) == More(Effect(c, AckRanges(l, w, n, r, e), accepts).c, |s|)
  {
    var vs, ws := [l, w, |r|, n], Flat(r) + e;
    TakeEncoded(vs, EncodeAll(ws) + rest);
    TakeEncoded(ws, rest);
    AckBy(c, vs, ws, e != [], EncodeAll(vs), EncodeAll(ws), rest);
  }

  /** An ACK whose four numbers vs are followed by ws. */
  lemma {:induction false} AckBy(c: Rx, vs: seq<nat>, ws: seq<nat>, ecn: bool, head: seq<byte>, more: seq<byte>, rest: seq<byte>)
    requires |vs| == 4 && |ws| == 2 * vs[2] + if ecn then 3 else 0
    requires TakeNums(head + (more + rest), 4) == Nums(vs, |head|) && TakeNums(more + rest, |ws|) == Nums(ws, |more|)
    ensures AckStep(c, ecn, head + more + rest) == More(c.(flight := PacketWindow.ApplyAck(c.flight, vs[0], vs[3])), |head + more|)
  {
    Assoc(head, more, rest);
    FrontBack(head, more + rest);
  }

  lemma {:induction false} AnyStreamParses(c: Rx, i: nat, o: nat, fin: bool, d: seq<byte>, rest: seq<byte>, accepts: Handshake)
    requires Sane(c) && Encodable(AnyStream(i, o, fin, d))
    ensures var r, s := Effect(c, AnyStream(i, o, fin, d), accepts), EncodeAll(StreamNums(i, o, |d|)) + d;
      StreamStep(c, StreamType(o != 0, true, fin), s + rest) == if r.ok then More(r.c, |s|) else Bad(r.c)
  {
    var vs := StreamNums(i, o, |d|);
    var e := EncodeAll(vs);
    TakeEncoded(vs, d + rest);
    CutData(e, d, rest);
    AnyStreamBy(c, e + d + rest, i, o, fin, |d|, |e|);
  }

  lemma {:induction false} AnyStreamBy(c: Rx, s: seq<byte>, i: nat, o: nat, fin: bool, len: nat, n: nat)
    requires TakeNums(s, |StreamNums(i, o, len)|) == Nums(StreamNums(i, o, len), n)
    ensures StreamStep(c, StreamType(o != 0, true, fin), s) == StreamBody(c, fin, i, o, len, s, n)
  {
  }

  /** The frame takes its bytes from the front of a packet and has its meant effect. */
  ghost predicate Stepped(c: Rx, f: Frame, rest: seq<byte>, accepts: Handshake)
    requires Sane(c)
  {
    var r := Effect(c, f, accepts);
    FrameStep(c, TypeOf(f), BodyOf(f) + rest, accepts) ==
    if f.CloseFrame? then Stop(r.c) else if r.ok then More(r.c, |BodyOf(f)|) else Bad(r.c)
  }

  lemma {:induction false} StreamStepped(c: Rx, f: Frame, rest: seq<byte>, accepts: Handshake)
    requires Sane(c) && Encodable(f) && (f.StreamFrame? || f.AnyStream?)
    ensures Stepped(c, f, rest, accepts)
  {
    match f
    case StreamFrame(o, d) => StreamParses(c, o, d, rest, accepts);
    case AnyStream(i, o, fin, d) => AnyStreamParses(c, i, o, fin, d, rest, accepts);
  }

  lemma {:induction false} AckStepped(c: Rx, f: Frame, rest: seq<byte>, accepts: Handshake)
    requires Sane(c) && Encodable(f) && (f.AckFrame? || f.AckRanges?)
    ensures Stepped(c, f, rest, accepts)
  {
    match f
    case AckFrame(l, n) => AckParses(c, l, n, rest);
    case AckRanges(l, w, n, r, e) => AckRangesParse(c, l, w, n, r, e, rest, accepts);
  }

  lemma {:induction false} CryptoStepped(c: Rx, f: Frame, rest: seq<byte>, accepts: Handshake)
    requires Sane(c) && Encodable(f) && f.CryptoFrame?
    ensures Stepped(c, f, rest, accepts)
  {
    CryptoParses(c, f.offset, f.d, rest, accepts);
  }

  lemma {:induction false} FrameStepped(c: Rx, f: Frame, rest: seq<byte>, accepts: Handshake)
    requires Sane(c) && Encodable(f)
    ensures Stepped(c, f, rest, accepts)
  {
    if f.StreamFrame? || f.AnyStream? {
      StreamStepped(c, f, rest, accepts);
    } else if f.AckFrame? || f.AckRanges? {
      AckStepped(c, f, rest, accepts);
    } else if f.CryptoFrame? {
      CryptoStepped(c, f, rest, accepts);
    }
  }

  /** A frame at the front of a packet has its meant effect, and the rest is parsed after it. */
  lemma {:induction false} FrameParses(c: Rx, f: Frame, rest: seq<byte>, accepts: Handshake)
    requires Sane(c) && Encodable(f)
    ensures var r := Effect(c, f, accepts);
      Parse(c, FrameBytes(f) + rest, accepts) == if r.ok && !f.CloseFrame? then Parse(r.c, rest, accepts) else r
  {
    var t, b := TypeOf(f), BodyOf(f);
    Assoc([t], b, rest);
    FrontBack([t], b + rest);
    FrontBack([t] + b, rest);
    FrameStepped(c, f, rest, accepts);
    ParseBy(c, [t] + b + rest, FrameStep(c, t, b + rest, accepts), accepts);
  }

  /** Parsing the bytes of any packet does to the receiver what its frames mean, in order. */
  lemma {:induction false} PacketRoundTrip(c: Rx, fs: seq<Frame>, accepts: Handshake)
    requires Sane(c) && forall i :: 0 <= i < |fs| ==> Encodable(fs[i])
    ensures Parse(c, PacketBytes(fs), accepts) == Effects(c, fs, accepts)
    decreases |fs|
  {
    if fs != [] {
      var f, tail := fs[0], fs[1..];
      FrameParses(c, f, PacketBytes(tail), accepts);
      var r := Effect(c, f, accepts);
      if r.ok && !f.CloseFrame? {
        PacketRoundTrip(r.c, tail, accepts);
      }
      EffectsBy(c, f, tail, accepts);
      assert [f] + tail == fs;
    }
  }

  lemma {:induction false} EffectsBy(c: Rx, f: Frame, tail: seq<Frame>, accepts: Handshake)
    requires Sane(c)
    ensures var r := Effect(c, f, accepts); Effects(c, [f] + tail, accepts) == if r.ok && !f.CloseFrame? then Effects(r.c, tail, accepts) else r
  {
    assert ([f] + tail)[1..] == tail;
  }

  // ---------------------------------------------------------------- a last frame without a length

  /** The numbers of a STREAM frame without a length. */
  function OpenNums(sid: nat, offset: nat): seq<nat> {
    if offset == 0 then [sid] else [sid, offset]
  }

  /** A STREAM frame without a length, whose data reach to the end of the packet. */
  function OpenBody(sid: nat, offset: nat, d: seq<byte>): seq<byte> {
    EncodeAll(OpenNums(sid, offset)) + d
  }

  lemma {:induction false} OpenStepped(c: Rx, i: nat, o: nat, fin: bool, d: seq<byte>, accepts: Handshake)
    requires Sane(c) && i < TWO_62 && o < TWO_62
    ensures var r, s := Effect(c, AnyStream(i, o, fin, d), accepts), OpenBody(i, o, d);
      StreamStep(c, StreamType(o != 0, false, fin), s) == if r.ok then More(r.c, |s|) else Bad(r.c)
  {
    var e := EncodeAll(OpenNums(i, o));
    TakeEncoded(OpenNums(i, o), d);
    OpenBy(c, e + d, i, o, fin, |e|);
    OpenData(c, i, o, fin, e, d, accepts);
  }

  lemma {:induction false} OpenData(c: Rx, i: nat, o: nat, fin: bool, e: seq<byte>, d: seq<byte>, accepts: Handshake)
    requires Sane(c)
    ensures var r := Effect(c, AnyStream(i, o, fin, d), accepts);
      StreamBody(c, fin, i, o, |d|, e + d, |e|) == if r.ok then More(r.c, |e + d|) else Bad(r.c)
  {
    assert (e + d)[|e|..|e| + |d|] == d;
  }

  lemma {:induction false} OpenBy(c: Rx, s: seq<byte>, i: nat, o: nat, fin: bool, n: nat)
    requires n <= |s| && TakeNums(s, |OpenNums(i, o)|) == Nums(OpenNums(i, o), n)
    ensures StreamStep(c, StreamType(o != 0, false, fin), s) == StreamBody(c, fin, i, o, |s| - n, s, n)
  {
  }

  lemma {:induction false} OpenParses(c: Rx, i: nat, o: nat, fin: bool, d: seq<byte>, accepts: Handshake)
    requires Sane(c) && i < TWO_62 && o < TWO_62
    ensures Parse(c, [StreamType(o != 0, false, fin)] + OpenBody(i, o, d), accepts) == Effect(c, AnyStream(i, o, fin, d), accepts)
  {
    var t, b := StreamType(o != 0, false, fin), OpenBody(i, o, d);
    var s := [t] + b;
    FrontBack([t], b);
    OpenStepped(c, i, o, fin, d, accepts);
    ParseBy(c, s, FrameStep(c, t, b, accepts), accepts);
    assert s[1 + |b|..] == [];
  }

  /** A packet whose last frame is a STREAM frame without a length does what its frames mean, in order. */
  lemma {:induction false} OpenPacketRoundTrip(c: Rx, fs: seq<Frame>, i: nat, o: nat, fin: bool, d: seq<byte>, accepts: Handshake)
    requires Sane(c) && i < TWO_62 && o < TWO_62 && forall k :: 0 <= k < |fs| ==> Encodable(fs[k])
    ensures Parse(c, PacketBytes(fs) + ([StreamType(o != 0, false, fin)] + OpenBody(i, o, d)), accepts)
         == Effects(c, fs + [AnyStream(i, o, fin, d)], accepts)
    decreases |fs|
  {
    var last, end := AnyStream(i, o, fin, d), [StreamType(o != 0, false, fin)] + OpenBody(i, o, d);
    if fs == [] {
      OpenParses(c, i, o, fin, d, accepts);
      assert PacketBytes(fs) + end == end;
      EffectsBy(c, last, [], accepts);
      assert fs + [last] == [last] + [];
    } else {
      var f, tail := fs[0], fs[1..];
      Assoc(FrameBytes(f), PacketBytes(tail), end);
      FrameParses(c, f, PacketBytes(tail) + end, accepts);
      var r := Effect(c, f, accepts);
      if r.ok && !f.CloseFrame? {
        OpenPacketRoundTrip(r.c, tail, i, o, fin, d, accepts);
      }
      EffectsBy(c, f, tail + [last], accepts);
      assert fs + [last] == [f] + (tail + [last]);
    }
  }
}
