/**
 In-order reassembly of the STREAM and CRYPTO bytes (sections 19.6 and 19.8 of RFC 9000):
 s_quic_stream_input, s_quic_crypto_input and the copying part of quic_read.
 */
module Reassembly {
  import opened Bytes

  const STREAM_MAX: nat := 256 * 1024
  const CRYPTO_MAX: nat := 8192

  // ---------------------------------------------------------------- stream

  /** The bytes received in order, how many were read, and whether the end was seen. */
  datatype Stream = Stream(data: seq<byte>, pos: nat, fin: bool)

  datatype StreamResult = StreamResult(ok: bool, s: Stream)

  function StreamIn(s: Stream, offset: nat, d: seq<byte>, fin: bool): StreamResult {
    if offset > STREAM_MAX || |d| > STREAM_MAX - offset then StreamResult(false, s)
    else if offset == |s.data| then StreamResult(true, s.(data := s.data + d, fin := s.fin || fin))
    else if offset + |d| <= |s.data| then StreamResult(true, s.(fin := s.fin || fin))
    else StreamResult(false, s)
  }

  class StreamReceiver {
    var rx: array<byte>
    var rxLen: nat
    var rxPos: nat
    var rxFin: bool

    ghost predicate Valid()
      reads this
    {
      rxPos <= rxLen <= rx.Length <= STREAM_MAX && IsCapacity(rx.Length)
    }

    ghost function State(): Stream
      requires Valid()
      reads this, rx
    {
      Stream(rx[..rxLen], rxPos, rxFin)
    }

    constructor ()
      ensures Valid() && fresh(rx) && State() == Stream([], 0, false)
    {
      rx := new byte[0];
      rxLen, rxPos, rxFin := 0, 0, false;
    }

    /** Makes room for `needed` bytes; inside the limit the doubling never fails. */
    method Grow(needed: nat)
      requires Valid() && needed <= STREAM_MAX
      modifies this`rx
      ensures Valid() && needed <= rx.Length && State() == old(State()) && (rx == old(rx) || fresh(rx))
    {
      if rx.Length == 0 {
        rx := new byte[8192];
      }
      if needed > rx.Length {
        var ncap := rx.Length;
        while ncap < needed
          invariant rx.Length <= ncap <= STREAM_MAX && IsCapacity(ncap) && ncap > 0
          decreases STREAM_MAX - ncap
        {
          assert ncap <= STREAM_MAX / 2;
          ncap := 2 * ncap;
        }
        var nbuf := new byte[ncap];
        MemCpy(nbuf, 0, rx[..rxLen]);
        assert nbuf[..rxLen] == rx[..rxLen];
        rx := nbuf;
      }
    }

    method Input(offset: nat, d: seq<byte>, fin: bool) returns (ok: bool)
      requires Valid()
      modifies this, rx
      ensures Valid() && (rx == old(rx) || fresh(rx))
      ensures StreamResult(ok, State()) == StreamIn(old(State()), offset, d, fin)
    {
      if offset > STREAM_MAX || |d| > STREAM_MAX - offset {
        return false;
      }
      Grow(offset + |d|);
      if offset == rxLen {
        MemCpy(rx, offset, d);
        rxLen := rxLen + |d|;
      } else if offset + |d| <= rxLen {
        // duplicate
      } else {
        return false;
      }
      if fin {
        rxFin := true;
      }
      return true;
    }

    /** Hands out at most len of the bytes not read yet. */
    method Read(len: nat) returns (dest: seq<byte>)
      requires Valid()
      modifies this`rxPos
      ensures Valid() && State() == old(State()).(pos := old(rxPos) + |dest|)
      ensures |dest| == if old(rxLen) - old(rxPos) > len then len else old(rxLen) - old(rxPos)
      ensures dest == old(State()).data[old(rxPos)..rxPos]
    {
      var have := rxLen - rxPos;
      if have > len {
        have := len;
      }
      dest := rx[rxPos..rxPos + have];
      TakeSlice(rx[..], rxLen, rxPos, rxPos + have);
      assert dest == rx[..rxLen][rxPos..rxPos + have];
      rxPos := rxPos + have;
    }
  }

  ghost predicate IsCapacity(n: nat) {
    n == 0 || n == 8192 || n == 16384 || n == 32768 || n == 65536 || n == 131072 || n == 262144
  }

  // ---------------------------------------------------------------- crypto

  /** The bytes received in order, how many belong to messages already handed on, and those messages. */
  datatype Crypto = Crypto(data: seq<byte>, parsed: nat, msgs: seq<seq<byte>>)

  datatype CryptoResult = CryptoResult(ok: bool, c: Crypto)

  /** A handshake message is four header bytes and the 24-bit length they announce. */
  function Announced(a: byte, b: byte, c: byte): nat {
    (a as nat) * 65536 + (b as nat) * 256 + (c as nat)
  }

  function MsgLen(s: seq<byte>): (n: nat)
    requires |s| >= 4
    ensures n >= 4
  {
    4 + Announced(s[1], s[2], s[3])
  }

  predicate HasMessage(s: seq<byte>) {
    |s| >= 4 && MsgLen(s) <= |s|
  }

  /** Hands on every complete message; `accepts` is the handshake's answer to the messages so far. */
  function Dispatch(c: Crypto, accepts: seq<seq<byte>> -> bool): (r: CryptoResult)
    requires c.parsed <= |c.data|
    ensures r.c.parsed <= |r.c.data|
    decreases |c.data| - c.parsed
  {
    var rest := c.data[c.parsed..];
    if !HasMessage(rest) then CryptoResult(true, c) else
      var m := rest[..MsgLen(rest)];
      if accepts(c.msgs + [m]) then Dispatch(c.(parsed := c.parsed + |m|, msgs := c.msgs + [m]), accepts)
      else CryptoResult(false, c)
  }

  /** Whether there is a complete message at the parse position, and which. */
  ghost predicate NextIs(c: Crypto, has: bool, m: seq<byte>)
    requires c.parsed <= |c.data|
  {
    var rest := c.data[c.parsed..];
    (has <==> HasMessage(rest)) && (has ==> |m| == MsgLen(rest) && m == rest[..|m|])
  }

  /** The round that finds message m, which leads to c1 if the handshake accepts it. */
  lemma {:induction false} DispatchBy(c: Crypto, m: seq<byte>, accepts: seq<seq<byte>> -> bool, c1: Crypto)
    requires c.parsed <= |c.data| && NextIs(c, true, m) && c1 == c.(parsed := c.parsed + |m|, msgs := c.msgs + [m])
    ensures c.parsed < c1.parsed <= |c.data|
    ensures Dispatch(c, accepts) == if accepts(c1.msgs) then Dispatch(c1, accepts) else CryptoResult(false, c)
  {
  }

  function CryptoIn(c: Crypto, offset: nat, d: seq<byte>, accepts: seq<seq<byte>> -> bool): CryptoResult
    requires c.parsed <= |c.data|
  {
    if offset > CRYPTO_MAX || |d| > CRYPTO_MAX - offset then CryptoResult(false, c)
    else if offset == |c.data| then Dispatch(c.(data := c.data + d), accepts)
    else CryptoResult(offset + |d| <= |c.data|, c)
  }

  class CryptoReceiver {
    const buf: array<byte>
    var len: nat
    var parsed: nat
    var msgs: seq<seq<byte>>

    ghost predicate Valid()
      reads this
    {
      parsed <= len <= buf.Length == CRYPTO_MAX
    }

    ghost function State(): Crypto
      requires Valid()
      reads this, buf
    {
      Crypto(buf[..len], parsed, msgs)
    }

    constructor ()
      ensures Valid() && fresh(buf) && State() == Crypto([], 0, [])
    {
      buf := new byte[CRYPTO_MAX];
      len, parsed, msgs := 0, 0, [];
    }

    /** The complete message at the parse position, if there is one. */
    method NextMessage() returns (has: bool, m: seq<byte>)
      requires Valid()
      ensures NextIs(State(), has, m)
    {
      ghost var rest := State().data[parsed..];
      assert rest == buf[parsed..len];
      if parsed + 4 > len {
        return false, [];
      }
      var total := 4 + Announced(buf[parsed + 1], buf[parsed + 2], buf[parsed + 3]);
      assert total == MsgLen(rest);
      if parsed + total > len {
        return false, [];
      }
      m := buf[parsed..parsed + total];
      assert m == rest[..total];
      return true, m;
    }

    /** Hands on message m, unless the handshake refuses it. */
    method DispatchOne(m: seq<byte>, accepts: seq<seq<byte>> -> bool) returns (ok: bool)
      requires Valid() && NextIs(State(), true, m)
      modifies this`parsed, this`msgs
      ensures Valid()
      ensures ok ==> parsed > old(parsed) && Dispatch(State(), accepts) == Dispatch(old(State()), accepts)
      ensures !ok ==> CryptoResult(false, State()) == Dispatch(old(State()), accepts)
    {
      ghost var c := State();
      ghost var c1 := c.(parsed := c.parsed + |m|, msgs := c.msgs + [m]);
      DispatchBy(c, m, accepts, c1);
      if !accepts(msgs + [m]) {
        return false;
      }
      msgs := msgs + [m];
      parsed := parsed + |m|;
      assert State() == c1;
      return true;
    }

    method DispatchAll(accepts: seq<seq<byte>> -> bool) returns (ok: bool)
      requires Valid()
      modifies this`parsed, this`msgs
      ensures Valid() && CryptoResult(ok, State()) == Dispatch(old(State()), accepts)
    {
      ghost var whole := Dispatch(State(), accepts);
      var has, m := NextMessage();
      while has
        invariant Valid() && Dispatch(State(), accepts) == whole && NextIs(State(), has, m)
        decreases len - parsed
      {
        ok := DispatchOne(m, accepts);
        if !ok {
          return false;
        }
        has, m := NextMessage();
      }
      return true;
    }

    method Input(offset: nat, d: seq<byte>, accepts: seq<seq<byte>> -> bool) returns (ok: bool)
      requires Valid()
      modifies this, buf
      ensures Valid() && CryptoResult(ok, State()) == CryptoIn(old(State()), offset, d, accepts)
    {
      if offset > CRYPTO_MAX || |d| > CRYPTO_MAX - offset {
        return false;
      }
      if offset == len {
        MemCpy(buf, offset, d);
        len := len + |d|;
      } else if offset + |d| <= len {
        return true;
      } else {
        return false;
      }
      ok := DispatchAll(accepts);
    }
  }

  // ---------------------------------------------------------------- prefixes

  /** d sits at `offset` of the byte stream `whole`. */
  ghost predicate SliceOf(d: seq<byte>, offset: nat, whole: seq<byte>) {
    offset + |d| <= |whole| && whole[offset..offset + |d|] == d
  }

  /** Whatever slices of a byte stream arrive, what was received stays a prefix of it. */
  lemma {:induction false} StreamStaysPrefix(s: Stream, offset: nat, d: seq<byte>, fin: bool, whole: seq<byte>)
    requires s.data <= whole && SliceOf(d, offset, whole)
    ensures StreamIn(s, offset, d, fin).s.data <= whole && s.data <= StreamIn(s, offset, d, fin).s.data
    ensures StreamIn(s, offset, d, fin).s.pos == s.pos
  {
    if offset == |s.data| {
      assert s.data + d == whole[..offset] + whole[offset..offset + |d|] == whole[..offset + |d|];
    }
  }

  /**
   Which slices of a byte stream are taken: those that end within the buffer and begin where the
   receiver stands, or that it has already. After a taken slice the receiver holds the stream as
   far as it has ever reached, and has seen the end if this or an earlier frame said so; a gap, a
   slice that overlaps only partly, or one beyond the buffer is refused and changes nothing.
   */
  lemma {:induction false} SliceTakenIff(s: Stream, offset: nat, d: seq<byte>, fin: bool, whole: seq<byte>)
    requires s.data <= whole && SliceOf(d, offset, whole)
    ensures var r, end := StreamIn(s, offset, d, fin), offset + |d|;
      && (r.ok <==> end <= STREAM_MAX && (offset == |s.data| || end <= |s.data|))
      && (r.ok ==> r.s == Stream(whole[..if end > |s.data| then end else |s.data|], s.pos, s.fin || fin))
      && (!r.ok ==> r.s == s)
  {
    StreamStaysPrefix(s, offset, d, fin, whole);
    assert s.data == whole[..|s.data|];
    if offset == |s.data| {
      assert s.data + d == whole[..offset + |d|];
    }
  }

  function Concat(ms: seq<seq<byte>>): seq<byte> {
    if ms == [] then [] else ms[0] + Concat(ms[1..])
  }

  ghost predicate WellFramed(ms: seq<seq<byte>>) {
    forall m :: m in ms ==> |m| >= 4 && |m| == MsgLen(m)
  }

  lemma {:induction false} ConcatSnoc(ms: seq<seq<byte>>, m: seq<byte>)
    ensures Concat(ms + [m]) == Concat(ms) + m
  {
    if ms == [] {
      assert Concat([m]) == m + Concat([]);
    } else {
      ConcatSnoc(ms[1..], m);
      assert (ms + [m])[1..] == ms[1..] + [m];
    }
  }

  /** The messages handed on are the framing of the bytes they were parsed from. */
  ghost predicate Framed(c: Crypto) {
    c.parsed <= |c.data| && WellFramed(c.msgs) && c.data[..c.parsed] == Concat(c.msgs)
  }

  /** One message more. */
  lemma {:induction false} FramedStep(c: Crypto, m: seq<byte>, c1: Crypto)
    requires Framed(c) && HasMessage(c.data[c.parsed..]) && |m| == MsgLen(c.data[c.parsed..]) && m == c.data[c.parsed..][..|m|]
    requires c1 == c.(parsed := c.parsed + |m|, msgs := c.msgs + [m])
    ensures Framed(c1)
  {
    ConcatSnoc(c.msgs, m);
    assert c.data[..c.parsed] + m == c.data[..c1.parsed];
  }

  /** What a dispatch leaves: framed messages, the old ones first, and no complete message behind them. */
  ghost predicate Dispatched(c: Crypto, r: CryptoResult) {
    && Framed(r.c) && r.c.data == c.data && c.msgs <= r.c.msgs
    && (r.ok ==> !HasMessage(r.c.data[r.c.parsed..]))
  }

  lemma {:induction false} DispatchFramed(c: Crypto, accepts: seq<seq<byte>> -> bool)
    requires Framed(c)
    ensures Dispatched(c, Dispatch(c, accepts))
    decreases |c.data| - c.parsed
  {
    var rest := c.data[c.parsed..];
    if HasMessage(rest) {
      var m := rest[..MsgLen(rest)];
      var c1 := c.(parsed := c.parsed + |m|, msgs := c.msgs + [m]);
      DispatchBy(c, m, accepts, c1);
      if accepts(c1.msgs) {
        FramedStep(c, m, c1);
        DispatchFramed(c1, accepts);
        DispatchedTrans(c, c1, Dispatch(c1, accepts));
      }
    }
  }

  lemma {:induction false} DispatchedTrans(c: Crypto, c1: Crypto, r: CryptoResult)
    requires Dispatched(c1, r) && c1.data == c.data && c.msgs <= c1.msgs
    ensures Dispatched(c, r)
  {
  }

  lemma {:induction false} CryptoStaysPrefix(c: Crypto, offset: nat, d: seq<byte>, accepts: seq<seq<byte>> -> bool, whole: seq<byte>)
    requires Framed(c) && c.data <= whole && SliceOf(d, offset, whole)
    ensures var r := CryptoIn(c, offset, d, accepts); Framed(r.c) && r.c.data <= whole && c.msgs <= r.c.msgs
  {
    if offset == |c.data| {
      assert c.data + d == whole[..offset] + whole[offset..offset + |d|] == whole[..offset + |d|];
      var c1 := c.(data := c.data + d);
      assert c1.data[..c.parsed] == c.data[..c.parsed];
      DispatchFramed(c1, accepts);
    }
  }

  /** Framing is unambiguous: messages parsed from a prefix of a framed stream are a prefix of its messages. */
  lemma {:induction false} FramingUnique(a: seq<seq<byte>>, b: seq<seq<byte>>)
    requires WellFramed(a) && WellFramed(b) && Concat(a) <= Concat(b)
    ensures a <= b
  {
    if a != [] {
      assert b != [];
      var x, y := a[0], b[0];
      var ca, cb := Concat(a), Concat(b);
      assert ca == x + Concat(a[1..]) && cb == y + Concat(b[1..]);
      assert forall i :: 0 <= i < 4 ==> x[i] == ca[i] && ca[i] == cb[i] && y[i] == cb[i];
      assert |x| == |y|;
      assert x == ca[..|x|] && y == cb[..|y|] && ca[..|x|] == cb[..|x|];
      assert Concat(a[1..]) == ca[|x|..] && Concat(b[1..]) == cb[|x|..];
      FramingUnique(a[1..], b[1..]);
      assert a == [x] + a[1..] && b == [y] + b[1..];
    }
  }
}
