/**
 The transport end to end: quic_write cuts its bytes into STREAM frames, the network loses,
 repeats and reorders packets, s_quic_parse_frames and quic_read put the bytes together
 again, and the handshake receives its CRYPTO messages.
 */
module QuicStreams {
  import opened Bytes
  import opened Varints
  import opened Reassembly
  import opened Frames
  import opened PacketWindow
  import TransportParams

  const CHUNK: nat := 1000
  const FRAME_CAP: nat := 1200

  // ---------------------------------------------------------------- the writing side

  function AckFrames(a: Ack): seq<Frame> {
    if a.Ack? then [AckFrame(a.largest, a.first)] else []
  }

  /** The frames of one chunk: an ACK when there is something to acknowledge, then the data. */
  function ChunkFrames(a: Ack, offset: nat, d: seq<byte>): seq<Frame> {
    AckFrames(a) + [StreamFrame(offset, d)]
  }

  function AckBytes(a: Ack): seq<byte> {
    if a.Ack? then FrameBytes(AckFrame(a.largest, a.first)) else []
  }

  lemma {:induction false} ChunkBytes(a: Ack, offset: nat, d: seq<byte>)
    ensures PacketBytes(ChunkFrames(a, offset, d)) == AckBytes(a) + FrameBytes(StreamFrame(offset, d))
  {
    var last := [StreamFrame(offset, d)];
    assert PacketBytes(last) == FrameBytes(last[0]) + PacketBytes([]);
    if a.Ack? {
      assert ChunkFrames(a, offset, d)[1..] == last;
    } else {
      assert ChunkFrames(a, offset, d) == last;
    }
  }

  method AppendNums(p: array<byte>, at: nat, vs: seq<nat>) returns (n: nat)
    requires at + |EncodeAll(vs)| <= p.Length && forall i :: 0 <= i < |vs| ==> vs[i] < TWO_64
    modifies p
    ensures n == at + |EncodeAll(vs)| && p[..n] == old(p[..at]) + EncodeAll(vs)
    decreases |vs|
  {
    if vs == [] {
      return at;
    }
    var ok;
    ok, n := AppendVarint(p, at, vs[0]);
    n := AppendNums(p, n, vs[1..]);
  }

  lemma {:induction false} EncodeAllLength(vs: seq<nat>)
    ensures |EncodeAll(vs)| <= 8 * |vs|
  {
    if vs != [] {
      EncodeAllLength(vs[1..]);
    }
  }

  /** A type byte and the numbers after it. */
  method PutHead(p: array<byte>, at: nat, t: byte, vs: seq<nat>) returns (n: nat)
    requires at + 1 + 8 * |vs| <= p.Length && forall i :: 0 <= i < |vs| ==> vs[i] < TWO_64
    modifies p
    ensures n == at + 1 + |EncodeAll(vs)| <= at + 1 + 8 * |vs|
    ensures p[..n] == old(p[..at]) + ([t] + EncodeAll(vs))
  {
    EncodeAllLength(vs);
    n := AppendBytes(p, at, [t]);
    n := AppendNums(p, n, vs);
  }

  /** s_quic_encode_ack: nothing without a received packet. */
  method PutAck(p: array<byte>, a: Ack) returns (n: nat)
    requires 33 <= p.Length && AckOk(a)
    modifies p
    ensures n == |AckBytes(a)| <= 33 && p[..n] == AckBytes(a)
  {
    if a == NoAck {
      return 0;
    }
    n := PutHead(p, 0, 0x02, [a.largest, 0, 0, a.first]);
  }

  method PutStream(p: array<byte>, at: nat, offset: nat, d: seq<byte>) returns (n: nat)
    requires at + 25 + |d| <= p.Length && offset < TWO_64 && |d| < TWO_64
    modifies p
    ensures n == at + |FrameBytes(StreamFrame(offset, d))| <= p.Length
    ensures p[..n] == old(p[..at]) + FrameBytes(StreamFrame(offset, d))
  {
    ghost var before := p[..at];
    n := PutHead(p, at, 0x0e, [0, offset, |d|]);
    ghost var nums := EncodeAll([0, offset, |d|]);
    n := AppendBytes(p, n, d);
    assert before + ([0x0e] + nums) + d == before + ([0x0e] + (nums + d));
  }

  ghost predicate AckOk(a: Ack) {
    a.Ack? ==> a.largest < TWO_62 && a.first < TWO_62
  }

  /** The buffer of one chunk always fits. */
  method BuildChunk(a: Ack, offset: nat, d: seq<byte>) returns (payload: seq<byte>)
    requires AckOk(a) && offset < TWO_62 && |d| <= CHUNK
    ensures payload == PacketBytes(ChunkFrames(a, offset, d))
  {
    var fr := new byte[FRAME_CAP];
    var n := PutAck(fr, a);
    n := PutStream(fr, n, offset, d);
    ChunkBytes(a, offset, d);
    return fr[..n];
  }

  /** A frame says nothing but what the two byte streams of its sender say. */
  ghost predicate Truthful(f: Frame, crypto: seq<byte>, stream: seq<byte>) {
    && Encodable(f)
    && (f.CryptoFrame? ==> SliceOf(f.d, f.offset, crypto))
    && (f.StreamFrame? || (f.AnyStream? && f.sid == 0) ==> SliceOf(f.d, f.offset, stream))
  }

  ghost predicate AllTruthful(fs: seq<Frame>, crypto: seq<byte>, stream: seq<byte>) {
    forall i :: 0 <= i < |fs| ==> Truthful(fs[i], crypto, stream)
  }

  lemma {:induction false} ChunkTruthful(a: Ack, crypto: seq<byte>, stream: seq<byte>, d: seq<byte>)
    requires AckOk(a) && |stream| + |d| < TWO_62
    ensures AllTruthful(ChunkFrames(a, |stream|, d), crypto, stream + d)
  {
  }

  lemma {:induction false} StillTruthful(fs: seq<Frame>, crypto: seq<byte>, stream: seq<byte>, crypto': seq<byte>, stream': seq<byte>)
    requires AllTruthful(fs, crypto, stream) && crypto <= crypto' && stream <= stream'
    ensures AllTruthful(fs, crypto', stream')
  {
    forall i | 0 <= i < |fs|
      ensures Truthful(fs[i], crypto', stream')
    {
      var f := fs[i];
      assert Truthful(f, crypto, stream);
      if f.CryptoFrame? {
        assert crypto'[f.offset..f.offset + |f.d|] == crypto[f.offset..f.offset + |f.d|];
      } else if f.StreamFrame? || (f.AnyStream? && f.sid == 0) {
        assert stream'[f.offset..f.offset + |f.d|] == stream[f.offset..f.offset + |f.d|];
      }
    }
  }

  ghost predicate IsPacket(p: seq<byte>, f: seq<Frame>) {
    p == PacketBytes(f) && forall i :: 0 <= i < |f| ==> Encodable(f[i])
  }

  ghost predicate ArePackets(ps: seq<seq<byte>>, fs: seq<seq<Frame>>) {
    |ps| == |fs| && forall i: nat :: i < |ps| ==> IsPacket(ps[i], fs[i])
  }

  lemma {:induction false} PacketsFrom(ps: seq<seq<byte>>, fs: seq<seq<Frame>>, n: nat)
    requires ArePackets(ps, fs) && n <= |ps|
    ensures ArePackets(ps[n..], fs[n..])
  {
    forall i: nat | i < |ps| - n
      ensures IsPacket(ps[n..][i], fs[n..][i])
    {
      assert IsPacket(ps[n + i], fs[n + i]);
    }
  }

  /** The bytes of the i-th chunk of data. */
  function Piece(data: seq<byte>, i: nat): (d: seq<byte>)
    requires i * CHUNK < |data|
    ensures 0 < |d| <= CHUNK
  {
    data[i * CHUNK..if |data| - i * CHUNK > CHUNK then i * CHUNK + CHUNK else |data|]
  }

  /** The packets carry data, which begins at off, chunk by chunk; the i-th also acknowledges acks(i). */
  ghost predicate Carries(ps: seq<seq<Frame>>, off: nat, data: seq<byte>, acks: nat -> Ack) {
    && |data| <= |ps| * CHUNK < |data| + CHUNK
    && forall i: nat :: i < |ps| ==> CarriesPiece(ps[i], i, off, data, acks(i))
  }

  /** The packet carries the i-th chunk of data and an acknowledgement. */
  ghost predicate CarriesPiece(p: seq<Frame>, i: nat, off: nat, data: seq<byte>, a: Ack) {
    i * CHUNK < |data| && p == ChunkFrames(a, off + i * CHUNK, Piece(data, i))
  }

  lemma {:induction false} CarriesMore(ps: seq<seq<Frame>>, off: nat, data: seq<byte>, acks: nat -> Ack, d: seq<byte>)
    requires Carries(ps, off, data, acks) && |data| == |ps| * CHUNK && 0 < |d| <= CHUNK
    ensures Carries(ps + [ChunkFrames(acks(|ps|), off + |data|, d)], off, data + d, acks)
  {
    var n, data' := |ps|, data + d;
    assert Piece(data', n) == d;
    forall i: nat | i < n
      ensures CarriesPiece(ps[i], i, off, data', acks(i))
    {
      assert CarriesPiece(ps[i], i, off, data, acks(i));
      assert Piece(data', i) == Piece(data, i);
    }
  }

  lemma {:induction false} CarriesLess(ps: seq<seq<Frame>>, off: nat, data: seq<byte>, acks: nat -> Ack)
    requires Carries(ps, off, data, acks) && ps != []
    ensures var n: nat := |ps| - 1; var less := data[..n * CHUNK];
      && Carries(ps[..n], off, less, acks) && less + Piece(data, n) == data
      && ps[n] == ChunkFrames(acks(n), off + |less|, Piece(data, n))
  {
    var n: nat := |ps| - 1;
    var less := data[..n * CHUNK];
    assert CarriesPiece(ps[n], n, off, data, acks(n));
    forall i: nat | i < n
      ensures CarriesPiece(ps[..n][i], i, off, less, acks(i))
    {
      assert CarriesPiece(ps[i], i, off, data, acks(i));
      assert Piece(less, i) == Piece(data, i);
    }
  }

  /** What a write of src has done: base grew to base' by a prefix of src, and ps to ps' by the packets that carry it. */
  ghost predicate Written(ps: seq<seq<Frame>>, ps': seq<seq<Frame>>, base: seq<byte>, base': seq<byte>, src: seq<byte>, acks: nat -> Ack) {
    && |base| <= |base'| <= |base| + |src| && base' == base + src[..|base'| - |base|]
    && ps <= ps' && Carries(ps'[|ps|..], |base|, base'[|base|..], acks)
  }

  lemma {:induction false} CarriesWritten(ps: seq<seq<Frame>>, added: seq<seq<Frame>>, base: seq<byte>, src: seq<byte>, off: nat, acks: nat -> Ack)
    requires off <= |src| && Carries(added, |base|, src[..off], acks)
    ensures Written(ps, ps + added, base, base + src[..off], src, acks)
  {
    assert (ps + added)[|ps|..] == added;
    assert (base + src[..off])[|base|..] == src[..off];
  }

  /** The packets that carry the first off bytes of src, and one more chunk. */
  lemma {:induction false} CarriesChunk(ps: seq<seq<Frame>>, at: nat, src: seq<byte>, off: nat, n: nat, acks: nat -> Ack, p: seq<Frame>)
    requires off == |ps| * CHUNK && 0 < n <= CHUNK && off + n <= |src| && Carries(ps, at, src[..off], acks)
    requires p == ChunkFrames(acks(|ps|), at + off, src[off..off + n])
    ensures Carries(ps + [p], at, src[..off + n], acks)
  {
    CarriesMore(ps, at, src[..off], acks, src[off..off + n]);
    assert src[..off] + src[off..off + n] == src[..off + n];
  }

  lemma {:induction false} Assoc3(a: seq<seq<Frame>>, b: seq<seq<Frame>>, c: seq<seq<Frame>>)
    ensures a + b + c == a + (b + c)
  {
  }

  /** All of src can be written: it ends within the limit, and every packet can be sent. */
  ghost predicate Sendable(at: nat, limit: nat, src: seq<byte>, sends: nat -> bool) {
    at + |src| <= limit && forall k: nat :: k * CHUNK < |src| ==> sends(k)
  }

  /** How far a write of src that began at offset `at` has come after k packets. */
  ghost predicate Progress(src: seq<byte>, off: nat, k: nat, acks: nat -> Ack, sends: nat -> bool, at: nat, limit: nat, added: seq<seq<Frame>>) {
    && off <= |src| && |added| == k && Carries(added, at, src[..off], acks) && at + off <= limit
    && off <= k * CHUNK && (off == |src| || off == k * CHUNK)
    && forall n: nat :: n < k ==> sends(n)
  }

  /** Why a write stops before the last bytes of src: the next chunk would pass the limit, or packet k cannot be sent. */
  ghost predicate Stopped(at: nat, limit: nat, rest: seq<byte>, sends: nat -> bool, k: nat) {
    rest != [] && (at + |Piece(rest, 0)| > limit || !sends(k))
  }

  /**
   What the answer of a write says: it succeeds if and only if all of src is committed, and if and
   only if all of src can be written; it fails where the write stopped.
   */
  ghost predicate Answers(ok: bool, sent: nat, sent': nat, base: seq<byte>, base': seq<byte>, src: seq<byte>, limit: nat, sends: nat -> bool) {
    && (ok <==> base' == base + src)
    && (ok <==> Sendable(|base|, limit, src, sends))
    && (!ok ==> sent <= sent' && |base| <= |base'| <= |base| + |src|
                && Stopped(|base'|, limit, src[|base'| - |base|..], sends, sent' - sent))
  }

  lemma {:induction false} StoppedAnswer(sent: nat, k: nat, base: seq<byte>, src: seq<byte>, off: nat, limit: nat, sends: nat -> bool)
    requires off == k * CHUNK < |src| && Stopped(|base| + off, limit, src[off..], sends, k)
    ensures Answers(false, sent, sent + k, base, base + src[..off], src, limit, sends)
  {
    assert |base + src[..off]| != |base + src|;
  }

  lemma {:induction false} DoneAnswer(sent: nat, k: nat, base: seq<byte>, src: seq<byte>, acks: nat -> Ack, sends: nat -> bool, limit: nat, added: seq<seq<Frame>>)
    requires Progress(src, |src|, k, acks, sends, |base|, limit, added)
    ensures Answers(true, sent, sent + k, base, base + src[..|src|], src, limit, sends)
  {
    assert src[..|src|] == src;
  }

  /** quic_write: `committed` is what it has handed over so far, `sent` the packets that carry it. */
  class Writer {
    var txOff: nat
    const limit: nat
    var sent: seq<seq<byte>>
    ghost var frames: seq<seq<Frame>>
    ghost var committed: seq<byte>

    ghost predicate Valid()
      reads this
    {
      && txOff == |committed| && txOff <= limit < TWO_62 && ArePackets(sent, frames)
      && forall i :: 0 <= i < |frames| ==> AllTruthful(frames[i], [], committed)
    }

    constructor (limit: nat)
      requires limit < TWO_62
      ensures Valid() && committed == [] && sent == [] && this.limit == limit
    {
      this.limit := limit;
      txOff, sent := 0, [];
      frames, committed := [], [];
    }

    /** One chunk: a packet that was sent commits its bytes, one that failed commits nothing. */
    method WriteChunk(d: seq<byte>, a: Ack, sendOk: bool)
      requires Valid() && AckOk(a) && |d| <= CHUNK && txOff + |d| <= limit
      modifies this
      ensures Valid() && committed == if sendOk then old(committed) + d else old(committed)
      ensures old(sent) <= sent && frames == if sendOk then old(frames) + [ChunkFrames(a, old(txOff), d)] else old(frames)
    {
      var payload := BuildChunk(a, txOff, d);
      if sendOk {
        ChunkTruthful(a, [], committed, d);
        forall i | 0 <= i < |sent|
          ensures AllTruthful(frames[i], [], committed + d)
        {
          StillTruthful(frames[i], [], committed, [], committed + d);
        }
        sent := sent + [payload];
        frames := frames + [ChunkFrames(a, txOff, d)];
        committed := committed + d;
        txOff := txOff + |d|;
      }
    }

    /** One round of the loop of a write. */
    method WriteOne(src: seq<byte>, off: nat, k: nat, acks: nat -> Ack, sends: nat -> bool, ghost at: nat, ghost before: seq<seq<Frame>>, ghost added: seq<seq<Frame>>)
      returns (go: bool, n: nat, ghost added': seq<seq<Frame>>)
      requires Valid() && AckOk(acks(k)) && off < |src| && txOff == at + off && frames == before + added
      requires Progress(src, off, k, acks, sends, at, limit, added)
      modifies this
      ensures Valid() && old(sent) <= sent && frames == before + added'
      ensures go ==> off + n <= |src| && committed == old(committed) + src[off..off + n] && Progress(src, off + n, k + 1, acks, sends, at, limit, added')
      ensures go ==> n > 0
      ensures !go ==> committed == old(committed) && added' == added && Stopped(txOff, limit, src[off..], sends, k)
    {
      n := |src| - off;
      if n > CHUNK {
        n := CHUNK;
      }
      added' := added;
      if txOff + n > limit {
        return false, n, added;
      }
      ghost var p := ChunkFrames(acks(k), txOff, src[off..off + n]);
      WriteChunk(src[off..off + n], acks(k), sends(k));
      if !sends(k) {
        return false, n, added;
      }
      CarriesChunk(added, at, src, off, n, acks, p);
      Assoc3(before, added, [p]);
      added' := added + [p];
      return true, n, added';
    }

    /**
     Commits a prefix of src and sends exactly the packets that carry it, all of src if and only
     if src ends within the peer's limit and every packet can be sent.
     */
    method Write(src: seq<byte>, acks: nat -> Ack, sends: nat -> bool) returns (ok: bool)
      requires Valid() && forall k: nat :: AckOk(acks(k))
      modifies this
      ensures Valid() && old(sent) <= sent
      ensures Written(old(frames), frames, old(committed), committed, src, acks)
      ensures Answers(ok, |old(sent)|, |sent|, old(committed), committed, src, limit, sends)
    {
      var off, k := 0, 0;
      ghost var added := [];
      while off < |src|
        invariant off <= |src| && Valid() && old(sent) <= sent && committed == old(committed) + src[..off]
        invariant frames == old(frames) + added && Progress(src, off, k, acks, sends, old(txOff), limit, added)
        decreases |src| - off
      {
        var go, n;
        go, n, added := WriteOne(src, off, k, acks, sends, old(txOff), old(frames), added);
        if !go {
          CarriesWritten(old(frames), added, old(committed), src, off, acks);
          StoppedAnswer(|old(sent)|, k, old(committed), src, off, limit, sends);
          return false;
        }
        assert src[..off] + src[off..off + n] == src[..off + n];
        off, k := off + n, k + 1;
      }
      CarriesWritten(old(frames), added, old(committed), src, off, acks);
      DoneAnswer(|old(sent)|, k, old(committed), src, acks, sends, limit, added);
      return true;
    }
  }

  // ---------------------------------------------------------------- the two limits

  /** The receiver after the chunks of a writer have arrived in order; refused ones leave it as it is. */
  function Fed(s: Stream, chunks: seq<seq<byte>>): StreamResult {
    if chunks == [] then StreamResult(true, s) else
      var r := Fed(s, chunks[..|chunks| - 1]);
      if !r.ok then r else StreamIn(r.s, |r.s.data|, chunks[|chunks| - 1], false)
  }

  function Total(chunks: seq<seq<byte>>): nat {
    if chunks == [] then 0 else Total(chunks[..|chunks| - 1]) + |chunks[|chunks| - 1]|
  }

  /** Without any loss, a receiver takes all the chunks of its peer if and only if they stay within its own buffer, whatever limit it advertised. */
  lemma {:induction false} AllTakenIff(s: Stream, chunks: seq<seq<byte>>)
    requires |s.data| <= STREAM_MAX
    ensures Fed(s, chunks).ok <==> |s.data| + Total(chunks) <= STREAM_MAX
    ensures Fed(s, chunks).ok ==> |Fed(s, chunks).s.data| == |s.data| + Total(chunks)
  {
    if chunks != [] {
      AllTakenIff(s, chunks[..|chunks| - 1]);
    }
  }

  /** The receiver after the acknowledgement of a chunk. */
  function Acked(c: Rx, a: Ack): Rx {
    if a.Ack? then c.(flight := ApplyAck(c.flight, a.largest, a.first)) else c
  }

  lemma {:induction false} ChunkEffects(c: Rx, a: Ack, offset: nat, d: seq<byte>, accepts: Handshake)
    requires Sane(c)
    ensures Effects(c, ChunkFrames(a, offset, d), accepts) == Effect(Acked(c, a), StreamFrame(offset, d), accepts)
  {
    var last := StreamFrame(offset, d);
    EffectsBy(Acked(c, a), last, [], accepts);
    assert [last] + [] == [last];
    if a.Ack? {
      EffectsBy(c, AckFrame(a.largest, a.first), [last], accepts);
    } else {
      assert ChunkFrames(a, offset, d) == [last];
    }
  }

  lemma {:induction false} ChunkParsed(c: Rx, a: Ack, offset: nat, d: seq<byte>, accepts: Handshake)
    requires Sane(c) && AckOk(a) && offset < TWO_62 && |d| < TWO_62
    ensures var r := StreamIn(c.stream, offset, d, false);
      Parse(c, PacketBytes(ChunkFrames(a, offset, d)), accepts) == Parsed(r.ok, Acked(c, a).(stream := r.s))
  {
    PacketRoundTrip(c, ChunkFrames(a, offset, d), accepts);
    ChunkEffects(c, a, offset, d, accepts);
  }

  /** The packet of a chunk that arrives in order parses without error if and only if the chunk ends within the receiver's buffer. */
  lemma {:induction false} ChunkTakenIff(c: Rx, a: Ack, d: seq<byte>, accepts: Handshake)
    requires Sane(c) && AckOk(a) && |c.stream.data| + |d| < TWO_62
    ensures Parse(c, PacketBytes(ChunkFrames(a, |c.stream.data|, d)), accepts).ok <==> |c.stream.data| + |d| <= STREAM_MAX
  {
    ChunkParsed(c, a, |c.stream.data|, d, accepts);
  }

  /** The receiver after these packets have arrived in order, up to one that is refused. */
  function ParseAll(c: Rx, ps: seq<seq<byte>>, accepts: Handshake): (r: Parsed)
    requires Sane(c)
    ensures Sane(r.c)
  {
    if ps == [] then Parsed(true, c) else
      var r := ParseAll(c, ps[..|ps| - 1], accepts);
      if r.ok then Parse(r.c, ps[|ps| - 1], accepts) else r
  }

  /** The same for packets given by their frames. */
  function EffectsAll(c: Rx, fs: seq<seq<Frame>>, accepts: Handshake): (r: Parsed)
    requires Sane(c)
    ensures Sane(r.c)
  {
    if fs == [] then Parsed(true, c) else
      var r := EffectsAll(c, fs[..|fs| - 1], accepts);
      if r.ok then Effects(r.c, fs[|fs| - 1], accepts) else r
  }

  lemma {:induction false} ParsePacket(c: Rx, p: seq<byte>, f: seq<Frame>, accepts: Handshake)
    requires Sane(c) && IsPacket(p, f)
    ensures Parse(c, p, accepts) == Effects(c, f, accepts)
  {
    PacketRoundTrip(c, f, accepts);
  }

  lemma {:induction false} ParseAllEffects(c: Rx, ps: seq<seq<byte>>, fs: seq<seq<Frame>>, accepts: Handshake)
    requires Sane(c) && ArePackets(ps, fs)
    ensures ParseAll(c, ps, accepts) == EffectsAll(c, fs, accepts)
    decreases |ps|
  {
    if ps != [] {
      var n: nat := |ps| - 1;
      assert IsPacket(ps[n], fs[n]);
      forall i: nat | i < n
        ensures IsPacket(ps[..n][i], fs[..n][i])
      {
        assert IsPacket(ps[i], fs[i]);
      }
      ParseAllEffects(c, ps[..n], fs[..n], accepts);
      ParsePacket(ParseAll(c, ps[..n], accepts).c, ps[n], fs[n], accepts);
    }
  }

  /** All the bytes arrived, in order and without an error. */
  ghost predicate Arrived(c: Rx, r: Parsed, data: seq<byte>) {
    r.ok && r.c.stream == c.stream.(data := c.stream.data + data)
  }

  lemma {:induction false} ArrivedMore(c: Rx, r: Parsed, data: seq<byte>, a: Ack, d: seq<byte>, accepts: Handshake)
    requires Sane(r.c) && Arrived(c, r, data) && |c.stream.data| + |data| + |d| <= STREAM_MAX
    ensures Arrived(c, Effects(r.c, ChunkFrames(a, |c.stream.data| + |data|, d), accepts), data + d)
  {
    ChunkEffects(r.c, a, |c.stream.data| + |data|, d, accepts);
    assert c.stream.data + data + d == c.stream.data + (data + d);
  }

  lemma {:induction false} ArrivedNext(c: Rx, fs: seq<seq<Frame>>, n: nat, less: seq<byte>, a: Ack, d: seq<byte>, data: seq<byte>, accepts: Handshake)
    requires Sane(c) && |fs| == n + 1 && Arrived(c, EffectsAll(c, fs[..n], accepts), less)
    requires fs[n] == ChunkFrames(a, |c.stream.data| + |less|, d) && less + d == data && |c.stream.data| + |data| <= STREAM_MAX
    ensures Arrived(c, EffectsAll(c, fs, accepts), data)
  {
    ArrivedMore(c, EffectsAll(c, fs[..n], accepts), less, a, d, accepts);
  }

  /** A receiver that has room for data where it stands holds it once it has taken the packets that carry it. */
  lemma {:induction false} CarriedArrives(c: Rx, fs: seq<seq<Frame>>, data: seq<byte>, acks: nat -> Ack, accepts: Handshake)
    requires Sane(c) && |c.stream.data| + |data| <= STREAM_MAX && Carries(fs, |c.stream.data|, data, acks)
    ensures Arrived(c, EffectsAll(c, fs, accepts), data)
    decreases |fs|
  {
    if fs == [] {
      assert data == [] && c.stream.data + data == c.stream.data;
    } else {
      var n: nat := |fs| - 1;
      CarriesLess(fs, |c.stream.data|, data, acks);
      var less, d := data[..n * CHUNK], Piece(data, n);
      CarriedArrives(c, fs[..n], less, acks, accepts);
      ArrivedNext(c, fs, n, less, acks(n), d, data, accepts);
    }
  }

  /** What a write committed arrives: a receiver in step with the writer, and with room, is so again after the new packets. */
  lemma {:induction false} WrittenArrives(c: Rx, ps: seq<seq<byte>>, fs: seq<seq<Frame>>, fs': seq<seq<Frame>>, base: seq<byte>, base': seq<byte>, src: seq<byte>, acks: nat -> Ack, accepts: Handshake)
    requires Sane(c) && c.stream.data == base && |base'| <= STREAM_MAX
    requires Written(fs, fs', base, base', src, acks) && ArePackets(ps, fs')
    ensures var r := ParseAll(c, ps[|fs|..], accepts); r.ok && r.c.stream == c.stream.(data := base')
  {
    CarriedArrives(c, fs'[|fs|..], base'[|base|..], acks, accepts);
    PacketsFrom(ps, fs', |fs|);
    ParseAllEffects(c, ps[|fs|..], fs'[|fs|..], accepts);
    assert base + base'[|base|..] == base';
  }

  function Full(n: nat): (c: seq<seq<byte>>)
    ensures |c| == n && forall i :: 0 <= i < n ==> |c[i]| == CHUNK
  {
    if n == 0 then [] else Full(n - 1) + [seq(CHUNK, i => 0)]
  }

  lemma {:induction false} FullTotal(n: nat)
    ensures Total(Full(n)) == n * CHUNK
  {
    if n > 0 {
      FullTotal(n - 1);
      assert Full(n)[..n - 1] == Full(n - 1);
    }
  }

  /** A writer within the advertised limit of 8 MiB can send what the receiver refuses, which ends the connection. */
  lemma {:induction false} WithinLimitRefused() returns (chunks: seq<seq<byte>>)
    ensures Total(chunks) <= TransportParams.FLOW && (forall i :: 0 <= i < |chunks| ==> |chunks[i]| <= CHUNK)
    ensures !Fed(Stream([], 0, false), chunks).ok
  {
    chunks := Full(263);
    FullTotal(263);
    AllTakenIff(Stream([], 0, false), chunks);
  }

  // ---------------------------------------------------------------- runs over a bad network

  /**
   `msgs` are the handshake messages and `stream` the bytes one side has committed; the
   packets it ever sent are in `packets`, and any of them may arrive at any time, any
   number of times, or never. `rx` and `read` are the other side.
   */
  datatype Net = Net(msgs: seq<seq<byte>>, stream: seq<byte>, packets: set<seq<Frame>>, rx: Rx, read: seq<byte>)

  ghost predicate Extend(s: Net, m: seq<byte>, s': Net) {
    WellFramed([m]) && s' == s.(msgs := s.msgs + [m])
  }

  ghost predicate SendChunk(s: Net, d: seq<byte>, a: Ack, s': Net) {
    && AckOk(a) && |s.stream| + |d| < TWO_62
    && s' == s.(stream := s.stream + d, packets := s.packets + {ChunkFrames(a, |s.stream|, d)})
  }

  /** Any other packet, such as CRYPTO bytes cut anywhere, or a retransmission. */
  ghost predicate Transmit(s: Net, fs: seq<Frame>, s': Net) {
    AllTruthful(fs, Concat(s.msgs), s.stream) && s' == s.(packets := s.packets + {fs})
  }

  ghost predicate Deliver(s: Net, fs: seq<Frame>, accepts: Handshake, s': Net) {
    fs in s.packets && Sane(s.rx) && s' == s.(rx := Parse(s.rx, PacketBytes(fs), accepts).c)
  }

  ghost predicate ReadSome(s: Net, n: nat, s': Net) {
    && s.rx.stream.pos + n <= |s.rx.stream.data|
    && s' == s.(rx := s.rx.(stream := s.rx.stream.(pos := s.rx.stream.pos + n)),
                read := s.read + s.rx.stream.data[s.rx.stream.pos..s.rx.stream.pos + n])
  }

  ghost predicate Next(s: Net, s': Net) {
    || (exists m: seq<byte> :: Extend(s, m, s'))
    || (exists d: seq<byte>, a: Ack :: SendChunk(s, d, a, s'))
    || (exists fs: seq<Frame> :: Transmit(s, fs, s'))
    || (exists fs: seq<Frame>, accepts: Handshake :: Deliver(s, fs, accepts, s'))
    || (exists n: nat :: ReadSome(s, n, s'))
  }

  ghost predicate Run(t: seq<Net>) {
    && |t| > 0
    && t[0] == Net([], [], {}, Rx(t[0].rx.app, t[0].rx.flight, Crypto([], 0, []), Stream([], 0, false), false), [])
    && forall i: nat :: i + 1 < |t| ==> Next(t[i], t[i + 1])
  }

  /** The receiver holds prefixes of what was committed. */
  ghost predicate Prefixes(c: Rx, crypto: seq<byte>, stream: seq<byte>) {
    Framed(c.crypto) && c.crypto.data <= crypto && c.stream.data <= stream && c.stream.pos <= |c.stream.data|
  }

  ghost predicate Inv(s: Net) {
    && Prefixes(s.rx, Concat(s.msgs), s.stream) && WellFramed(s.msgs)
    && s.read == s.rx.stream.data[..s.rx.stream.pos]
    && forall fs :: fs in s.packets ==> AllTruthful(fs, Concat(s.msgs), s.stream)
  }

  lemma {:induction false} EffectPrefixes(c: Rx, f: Frame, accepts: Handshake, crypto: seq<byte>, stream: seq<byte>)
    requires Prefixes(c, crypto, stream) && Truthful(f, crypto, stream)
    ensures var r := Effect(c, f, accepts).c;
      Prefixes(r, crypto, stream) && c.stream.data <= r.stream.data && r.stream.pos == c.stream.pos
  {
    if f.CryptoFrame? {
      CryptoStaysPrefix(c.crypto, f.offset, f.d, accepts, crypto);
    } else if f.StreamFrame? {
      StreamStaysPrefix(c.stream, f.offset, f.d, false, stream);
    } else if f.AnyStream? && f.sid == 0 {
      StreamStaysPrefix(c.stream, f.offset, f.d, f.fin, stream);
    }
  }

  lemma {:induction false} EffectsPrefixes(c: Rx, fs: seq<Frame>, accepts: Handshake, crypto: seq<byte>, stream: seq<byte>)
    requires Prefixes(c, crypto, stream) && AllTruthful(fs, crypto, stream)
    ensures var r := Effects(c, fs, accepts).c;
      Prefixes(r, crypto, stream) && c.stream.data <= r.stream.data && r.stream.pos == c.stream.pos
    decreases |fs|
  {
    if fs != [] {
      assert Truthful(fs[0], crypto, stream);
      EffectPrefixes(c, fs[0], accepts, crypto, stream);
      var r := Effect(c, fs[0], accepts);
      if r.ok && !fs[0].CloseFrame? {
        EffectsPrefixes(r.c, fs[1..], accepts, crypto, stream);
      }
    }
  }

  lemma {:induction false} DeliverInv(s: Net, fs: seq<Frame>, accepts: Handshake, s': Net)
    requires Inv(s) && Deliver(s, fs, accepts, s')
    ensures Inv(s')
  {
    assert AllTruthful(fs, Concat(s.msgs), s.stream);
    assert forall i :: 0 <= i < |fs| ==> Truthful(fs[i], Concat(s.msgs), s.stream);
    PacketRoundTrip(s.rx, fs, accepts);
    EffectsPrefixes(s.rx, fs, accepts, Concat(s.msgs), s.stream);
  }

  lemma {:induction false} GrowInv(s: Net, s': Net)
    requires Inv(s) && s' == s.(msgs := s'.msgs, stream := s'.stream) && WellFramed(s'.msgs)
    requires Concat(s.msgs) <= Concat(s'.msgs) && s.stream <= s'.stream
    ensures Inv(s')
  {
    forall fs | fs in s.packets
      ensures AllTruthful(fs, Concat(s'.msgs), s'.stream)
    {
      StillTruthful(fs, Concat(s.msgs), s.stream, Concat(s'.msgs), s'.stream);
    }
  }

  lemma {:induction false} ChunkInv(s: Net, d: seq<byte>, a: Ack, s': Net)
    requires Inv(s) && SendChunk(s, d, a, s')
    ensures Inv(s')
  {
    GrowInv(s, s.(stream := s.stream + d));
    ChunkTruthful(a, Concat(s.msgs), s.stream, d);
  }

  lemma {:induction false} ReadInv(s: Net, n: nat, s': Net)
    requires Inv(s) && ReadSome(s, n, s')
    ensures Inv(s')
  {
    var x := s.rx.stream;
    assert x.data[..x.pos] + x.data[x.pos..x.pos + n] == x.data[..x.pos + n];
  }

  lemma {:induction false} NextInv(s: Net, s': Net)
    requires Inv(s) && Next(s, s')
    ensures Inv(s')
  {
    if m: seq<byte> :| Extend(s, m, s') {
      ConcatSnoc(s.msgs, m);
      GrowInv(s, s');
    } else if d: seq<byte>, a: Ack :| SendChunk(s, d, a, s') {
      ChunkInv(s, d, a, s');
    } else if fs: seq<Frame>, accepts: Handshake :| Deliver(s, fs, accepts, s') {
      DeliverInv(s, fs, accepts, s');
    } else if n: nat :| ReadSome(s, n, s') {
      ReadInv(s, n, s');
    }
  }

  lemma {:induction false} RunInv(t: seq<Net>, i: nat)
    requires Run(t) && i < |t|
    ensures Inv(t[i])
  {
    if i > 0 {
      RunInv(t, i - 1);
      assert Next(t[i - 1], t[i - 1 + 1]);
      NextInv(t[i - 1], t[i]);
    }
  }

  /** Whatever the network does, the bytes read are a prefix of the bytes written. */
  lemma {:induction false} ReadIsPrefix(t: seq<Net>, i: nat)
    requires Run(t) && i < |t|
    ensures t[i].read <= t[i].rx.stream.data <= t[i].stream
  {
    RunInv(t, i);
  }

  /** However the CRYPTO bytes were cut and repeated, the messages handed on are the first ones the peer sent, in order. */
  lemma {:induction false} MessagesArePrefix(t: seq<Net>, i: nat)
    requires Run(t) && i < |t|
    ensures t[i].rx.crypto.msgs <= t[i].msgs
  {
    RunInv(t, i);
    var c := t[i].rx.crypto;
    assert c.data[..c.parsed] <= Concat(t[i].msgs);
    FramingUnique(c.msgs, t[i].msgs);
  }
}
