/** Bytes as numbers, and the powers the wire formats are stated in. */
module Bytes {
  type byte = x: nat | x < 256

  const TWO_6: nat := 64
  const TWO_14: nat := 0x4000
  const TWO_30: nat := 0x4000_0000
  const TWO_62: nat := 0x4000_0000_0000_0000
  const TWO_64: nat := 0x1_0000_0000_0000_0000

  lemma {:induction false} DropDrop<T>(s: seq<T>, i: nat, j: nat)
    requires i + j <= |s|
    ensures s[i..][j..] == s[i + j..]
  {
  }

  lemma {:induction false} DropSlice<T>(s: seq<T>, i: nat, a: nat, b: nat)
    requires a <= b && i + b <= |s|
    ensures s[i..][a..b] == s[i + a..i + b]
  {
  }

  lemma {:induction false} TakeSlice<T>(s: seq<T>, n: nat, a: nat, b: nat)
    requires a <= b <= n <= |s|
    ensures s[..n][a..b] == s[a..b]
  {
  }

  lemma {:induction false} FrontBack<T>(a: seq<T>, b: seq<T>)
    ensures (a + b)[..|a|] == a && (a + b)[|a|..] == b
  {
  }

  /** memcpy of d to a[at..]. */
  method MemCpy(a: array<byte>, at: nat, d: seq<byte>)
    requires at + |d| <= a.Length
    modifies a
    ensures a[at..at + |d|] == d && a[..at + |d|] == old(a[..at]) + d
    ensures forall k :: 0 <= k < a.Length && !(at <= k < at + |d|) ==> a[k] == old(a[k])
  {
    for i := 0 to |d|
      invariant forall k :: at <= k < at + i ==> a[k] == d[k - at]
      invariant forall k :: 0 <= k < a.Length && !(at <= k < at + i) ==> a[k] == old(a[k])
    {
      a[at + i] := d[i];
    }
    assert a[..at] == old(a[..at]) && a[at..at + |d|] == d;
    assert a[..at + |d|] == a[..at] + a[at..at + |d|];
  }

  /** The big-endian value of a byte string. */
  function BigEndian(s: seq<byte>): nat {
    if s == [] then 0 else BigEndian(s[..|s| - 1]) * 256 + s[|s| - 1]
  }

  /** The n low bytes of v, most significant first. */
  function LowBytes(v: nat, n: nat): (s: seq<byte>)
    ensures |s| == n
  {
    if n == 0 then [] else LowBytes(v / 256, n - 1) + [v % 256]
  }

  function Pow256(n: nat): (p: nat)
    ensures p > 0
  {
    if n == 0 then 1 else 256 * Pow256(n - 1)
  }

  lemma {:induction false} BigEndianLow(v: nat, n: nat)
    requires v < Pow256(n)
    ensures BigEndian(LowBytes(v, n)) == v
  {
    if n > 0 {
      assert v / 256 < Pow256(n - 1);
      BigEndianLow(v / 256, n - 1);
      assert LowBytes(v, n)[..n - 1] == LowBytes(v / 256, n - 1);
    }
  }

  lemma {:induction false} BigEndianBound(s: seq<byte>)
    ensures BigEndian(s) < Pow256(|s|)
  {
    if s != [] {
      BigEndianBound(s[..|s| - 1]);
    }
  }
}

/** Variable-length integers (section 16 of RFC 9000): s_quic_put_varint and s_quic_get_varint. */
module Varints {
  import opened Bytes

  function Size(v: nat): (n: nat)
    ensures n == 1 || n == 2 || n == 4 || n == 8
  {
    if v < TWO_6 then 1 else if v < TWO_14 then 2 else if v < TWO_30 then 4 else 8
  }

  /** The two top bits of the first byte of an n-byte encoding. */
  function Tag(n: nat): (t: nat)
    ensures t <= 192
  {
    if n == 1 then 0 else if n == 2 then 64 else if n == 4 then 128 else 192
  }

  /** The value in as many low bytes as its size, the two top bits replaced by the tag. */
  function Encode(v: nat): (s: seq<byte>)
    ensures |s| == Size(v)
  {
    var low := LowBytes(v, Size(v));
    low[0 := low[0] % 64 + Tag(Size(v))]
  }

  datatype Decoded = Short | Value(v: nat, n: nat)

  function Length(first: byte): (n: nat)
    ensures n == 1 || n == 2 || n == 4 || n == 8
  {
    if first < 64 then 1 else if first < 128 then 2 else if first < 192 then 4 else 8
  }

  /** The value at the front of s and the bytes it takes. */
  function Decode(s: seq<byte>): (r: Decoded)
    ensures r.Value? ==> r.n <= |s| && r.n > 0
  {
    if s == [] then Short else
      var n := Length(s[0]);
      if |s| < n then Short else Value(Val(s, n), n)
  }

  /** The first i bytes of s as a number, without the two tag bits. */
  function Val(s: seq<byte>, i: nat): nat
    requires 0 < i <= |s|
  {
    if i == 1 then s[0] % 64 else Val(s, i - 1) * 256 + s[i - 1]
  }

  lemma {:induction false} ValIsBigEndian(s: seq<byte>, i: nat)
    requires 0 < i <= |s|
    ensures Val(s, i) == BigEndian(s[..i][0 := s[0] % 64])
  {
    var t := s[..i][0 := s[0] % 64];
    if i == 1 {
      assert t == [s[0] % 64] && t[..0] == [];
    } else {
      ValIsBigEndian(s, i - 1);
      assert t[..i - 1] == s[..i - 1][0 := s[0] % 64];
    }
  }

  // ---------------------------------------------------------------- the code

  /** v >> 8k */
  function Shr(v: nat, k: nat): nat {
    if k == 0 then v else Shr(v / 256, k - 1)
  }

  lemma {:induction false} LowByteAt(v: nat, n: nat, i: nat)
    requires i < n
    ensures LowBytes(v, n)[i] == Shr(v, n - 1 - i) % 256
  {
    if i < n - 1 {
      LowByteAt(v / 256, n - 1, i);
    }
  }

  lemma {:induction false} EncodeAt(v: nat, i: nat)
    requires i < Size(v)
    ensures Encode(v)[i] == if i == 0 then Shr(v, Size(v) - 1) % 256 % 64 + Tag(Size(v)) else Shr(v, Size(v) - 1 - i) % 256
  {
    LowByteAt(v, Size(v), i);
  }

  /** Writes v at p[at..] if it fits below `end`; n is the count of bytes, 0 when it does not fit. */
  method PutVarint(p: array<byte>, at: nat, end: nat, v: nat) returns (n: nat)
    requires at <= end <= p.Length && v < TWO_64
    modifies p
    ensures n == if at + Size(v) <= end then Size(v) else 0
    ensures n > 0 ==> p[at..at + n] == Encode(v)
    ensures forall k :: 0 <= k < p.Length && !(at <= k < at + n) ==> p[k] == old(p[k])
  {
    n := Size(v);
    if n > end - at {
      return 0;
    }
    p[at] := Shr(v, n - 1) % 256 % 64 + Tag(n);
    for i := 1 to n
      invariant p[at] == Shr(v, n - 1) % 256 % 64 + Tag(n)
      invariant forall k :: at < k < at + i ==> p[k] == Shr(v, n - 1 - (k - at)) % 256
      invariant forall k :: 0 <= k < p.Length && !(at <= k < at + n) ==> p[k] == old(p[k])
    {
      p[at + i] := Shr(v, n - 1 - i) % 256;
    }
    forall k | 0 <= k < n
      ensures p[at..at + n][k] == Encode(v)[k]
    {
      EncodeAt(v, k);
    }
  }

  /** Appends a varint to the n bytes written so far, if it fits. */
  method AppendVarint(p: array<byte>, at: nat, v: nat) returns (ok: bool, n: nat)
    requires at <= p.Length && v < TWO_64
    modifies p
    ensures ok <==> at + Size(v) <= p.Length
    ensures ok ==> n == at + Size(v) && p[..n] == old(p[..at]) + Encode(v)
  {
    var a := PutVarint(p, at, p.Length, v);
    assert p[..at] == old(p[..at]);
    assert p[..at + a] == p[..at] + p[at..at + a];
    return a > 0, at + a;
  }

  /** Appends s to the bytes written so far. */
  method AppendBytes(p: array<byte>, at: nat, s: seq<byte>) returns (n: nat)
    requires at + |s| <= p.Length
    modifies p
    ensures n == at + |s| && p[..n] == old(p[..at]) + s
  {
    MemCpy(p, at, s);
    return at + |s|;
  }

  /** Reads the value at p[pos..end]; on success `next` is the position after it. */
  method GetVarint(p: seq<byte>, pos: nat, end: nat) returns (ok: bool, v: nat, next: nat)
    requires pos <= end <= |p|
    ensures ok <==> Decode(p[pos..end]).Value?
    ensures ok ==> pos < next <= end && Decode(p[pos..end]) == Value(v, next - pos) && v < TWO_62
    ensures !ok ==> next == pos
  {
    v, next := 0, pos;
    if pos >= end {
      return false, 0, pos;
    }
    var n := Length(p[pos]);
    if end - pos < n {
      return false, 0, pos;
    }
    ghost var s := p[pos..end];
    v := p[pos] % 64;
    for i := 1 to n
      invariant v == Val(s, i)
    {
      assert s[i] == p[pos + i];
      v := v * 256 + p[pos + i];
    }
    DecodeBound(s);
    return true, v, pos + n;
  }

  // ---------------------------------------------------------------- what it means

  /** b << 8n */
  function Shl(b: nat, n: nat): nat {
    if n == 0 then b else 256 * Shl(b, n - 1)
  }

  lemma {:induction false} ShlValues(b: nat)
    ensures Shl(b, 0) == b && Shl(b, 1) == 0x100 * b && Shl(b, 3) == 0x100_0000 * b && Shl(b, 7) == 0x100_0000_0000_0000 * b
  {
    assert Shl(b, 1) == 0x100 * b;
    assert Shl(b, 2) == 0x1_0000 * b;
    assert Shl(b, 3) == 0x100_0000 * b;
    assert Shl(b, 4) == 0x1_0000_0000 * b;
    assert Shl(b, 5) == 0x100_0000_0000 * b;
    assert Shl(b, 6) == 0x1_0000_0000_0000 * b;
  }

  lemma {:induction false} BigEndianFirst(s: seq<byte>)
    requires s != []
    ensures BigEndian(s) == Shl(s[0], |s| - 1) + BigEndian(s[1..])
  {
    if |s| > 1 {
      var n := |s| - 1;
      BigEndianFirst(s[..n]);
      assert s[1..][..n - 1] == s[..n][1..];
      assert s[..n][0] == s[0];
    } else {
      assert s[..0] == [];
    }
  }

  lemma {:induction false} DecodeBound(s: seq<byte>)
    ensures Decode(s).Value? ==> Decode(s).v < 64 * Pow256(Decode(s).n - 1) <= TWO_62
  {
    if Decode(s).Value? {
      var n := Length(s[0]);
      var t := s[..n][0 := s[0] % 64];
      PowValues();
      ShlValues(t[0]);
      ValIsBigEndian(s, n);
      BigEndianFirst(t);
      BigEndianBound(t[1..]);
    }
  }

  lemma {:induction false} PowValues()
    ensures Pow256(0) == 1 && Pow256(1) == 0x100 && Pow256(3) == 0x100_0000 && Pow256(7) == 0x100_0000_0000_0000
  {
    assert Pow256(2) == 0x1_0000 && Pow256(4) == 0x1_0000_0000 && Pow256(5) == 0x100_0000_0000 && Pow256(6) == 0x1_0000_0000_0000;
  }

  /**
   For every 64-bit value and every suffix, decoding an encoding consumes exactly the
   encoding and gives the value modulo 2^62.
   */
  lemma {:induction false} DecodeEncode(v: nat, rest: seq<byte>)
    requires v < TWO_64
    ensures Decode(Encode(v) + rest) == Value(v % TWO_62, Size(v))
  {
    var n := Size(v);
    var e := Encode(v);
    var low := LowBytes(v, n);
    assert (e + rest)[0] == e[0] && Length(e[0]) == n;
    assert (e + rest)[..n] == e;
    var t := low[0 := low[0] % 64];
    assert e[0 := e[0] % 64] == t;
    ValIsBigEndian(e + rest, n);
    PowValues();
    BigEndianLow(v, n);
    BigEndianFirst(t);
    BigEndianFirst(low);
    assert t[1..] == low[1..];
    BigEndianBound(low[1..]);
    TopBits(v, n, low[0], BigEndian(low[1..]));
  }

  /** Dropping the two top bits of the first of n bytes loses nothing below 2^62. */
  lemma {:induction false} TopBits(v: nat, n: nat, b: byte, r: nat)
    requires v < TWO_64 && n == Size(v) && v == Shl(b, n - 1) + r && r < Pow256(n - 1)
    ensures Shl(b % 64, n - 1) + r == v % TWO_62
  {
    PowValues();
    ShlValues(b);
    ShlValues(b % 64);
    if n == 8 {
      assert b == b / 64 * 64 + b % 64;
    }
  }

  /** So the round trip is exact if and only if the value is below 2^62. */
  lemma {:induction false} RoundTripIff(v: nat, rest: seq<byte>)
    requires v < TWO_64
    ensures Decode(Encode(v) + rest) == Value(v, Size(v)) <==> v < TWO_62
  {
    DecodeEncode(v, rest);
  }

  /** No byte string that decodes to v is shorter than the encoding of v. */
  lemma {:induction false} EncodingIsMinimal(s: seq<byte>)
    requires Decode(s).Value?
    ensures Size(Decode(s).v) <= Decode(s).n
  {
    DecodeBound(s);
    PowValues();
  }
}
