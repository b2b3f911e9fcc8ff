/**
 The channel's ring: `bufSz` slots of `elemSz` bytes in one byte array, a head slot and
 a count. `Contents` is the queue of elements it stands for.
 */
module Rings {
  import opened Bytes

  /** The bytes of slot i. */
  function Slot(a: seq<byte>, elemSz: nat, i: nat): (e: seq<byte>)
    requires i * elemSz + elemSz <= |a|
    ensures |e| == elemSz
  {
    a[i * elemSz..i * elemSz + elemSz]
  }

  lemma {:induction false} SlotBelow(elemSz: nat, i: nat, n: nat)
    requires i < n
    ensures i * elemSz + elemSz <= n * elemSz
  {
    if i + 1 < n {
      SlotBelow(elemSz, i, n - 1);
    }
    assert n * elemSz == (n - 1) * elemSz + elemSz;
  }

  /** Writing one slot leaves the others alone. */
  lemma {:induction false} SlotsApart(a: seq<byte>, b: seq<byte>, elemSz: nat, w: nat, i: nat)
    requires |a| == |b| && i != w && i * elemSz + elemSz <= |a| && w * elemSz + elemSz <= |a|
    requires forall k :: 0 <= k < |a| && !(w * elemSz <= k < w * elemSz + elemSz) ==> a[k] == b[k]
    ensures Slot(a, elemSz, i) == Slot(b, elemSz, i)
  {
    if i < w {
      SlotBelow(elemSz, i, w);
    } else {
      SlotBelow(elemSz, w, i);
    }
  }

  ghost predicate Fits(a: seq<byte>, elemSz: nat, bufSz: nat) {
    bufSz > 0 && |a| == bufSz * elemSz
  }

  /** The `count` elements that start at slot `head` and wrap around. */
  function Gather(a: seq<byte>, elemSz: nat, bufSz: nat, head: nat, count: nat): (s: seq<seq<byte>>)
    requires Fits(a, elemSz, bufSz)
    ensures |s| == count
    ensures forall k :: 0 <= k < count ==> (SlotBelow(elemSz, (head + k) % bufSz, bufSz); s[k] == Slot(a, elemSz, (head + k) % bufSz))
  {
    if count == 0 then []
    else
      SlotBelow(elemSz, (head + count - 1) % bufSz, bufSz);
      Gather(a, elemSz, bufSz, head, count - 1) + [Slot(a, elemSz, (head + count - 1) % bufSz)]
  }

  lemma {:induction false} ModOnce(x: nat, n: nat)
    requires x < 2 * n
    ensures x % n == if x < n then x else x - n
  {
    if x >= n {
      assert x == n + (x - n);
    }
  }

  /** Distinct positions of a ring no longer than its buffer sit in distinct slots. */
  lemma {:induction false} DistinctSlots(head: nat, i: nat, j: nat, n: nat)
    requires head < n && i < j < n
    ensures (head + i) % n != (head + j) % n
  {
    ModOnce(head + i, n);
    ModOnce(head + j, n);
  }

  lemma {:induction false} Rotate(h: nat, k: nat, n: nat)
    requires h < n && k < n
    ensures ((h + 1) % n + k) % n == (h + (k + 1)) % n
  {
    ModOnce(h + 1, n);
    ModOnce((h + 1) % n + k, n);
    ModOnce(h + k + 1, n);
  }

  /** Dropping the oldest element moves the head one slot on. */
  lemma {:induction false} GatherTail(a: seq<byte>, elemSz: nat, bufSz: nat, h: nat, count: nat)
    requires Fits(a, elemSz, bufSz) && h < bufSz && 0 < count <= bufSz
    ensures h * elemSz + elemSz <= |a|
    ensures Gather(a, elemSz, bufSz, h, count) == [Slot(a, elemSz, h)] + Gather(a, elemSz, bufSz, (h + 1) % bufSz, count - 1)
  {
    SlotBelow(elemSz, h, bufSz);
    var whole, rest := Gather(a, elemSz, bufSz, h, count), Gather(a, elemSz, bufSz, (h + 1) % bufSz, count - 1);
    forall k | 0 <= k < count - 1
      ensures rest[k] == whole[k + 1]
    {
      Rotate(h, k, bufSz);
    }
    ModOnce(h + 0, bufSz);
    assert whole[0] == Slot(a, elemSz, h);
    assert whole == [whole[0]] + rest;
  }

  /** Writing the first free slot appends its element. */
  lemma {:induction false} GatherPush(a: seq<byte>, b: seq<byte>, elemSz: nat, bufSz: nat, head: nat, count: nat)
    requires Fits(a, elemSz, bufSz) && Fits(b, elemSz, bufSz) && head < bufSz && count < bufSz
    requires var w := (head + count) % bufSz;
      forall k :: 0 <= k < |a| && !(w * elemSz <= k < w * elemSz + elemSz) ==> a[k] == b[k]
    ensures (head + count) % bufSz * elemSz + elemSz <= |b|
    ensures Gather(b, elemSz, bufSz, head, count + 1) == Gather(a, elemSz, bufSz, head, count) + [Slot(b, elemSz, (head + count) % bufSz)]
  {
    var w := (head + count) % bufSz;
    SlotBelow(elemSz, w, bufSz);
    var x, y := Gather(a, elemSz, bufSz, head, count), Gather(b, elemSz, bufSz, head, count);
    forall k: nat | k < count
      ensures x[k] == y[k]
    {
      DistinctSlots(head, k, count, bufSz);
      SlotBelow(elemSz, (head + k) % bufSz, bufSz);
      SlotsApart(a, b, elemSz, w, (head + k) % bufSz);
    }
    assert x == y;
  }

  class Ring {
    const elemSz: nat
    const bufSz: nat
    const buf: array<byte>
    var head: nat
    var count: nat

    ghost predicate Valid()
      reads this
    {
      bufSz > 0 && buf.Length == bufSz * elemSz && head < bufSz && count <= bufSz
    }

    ghost function Contents(): (s: seq<seq<byte>>)
      requires Valid()
      reads this, buf
      ensures |s| == count
    {
      Gather(buf[..], elemSz, bufSz, head, count)
    }

    constructor (elemSz: nat, bufSz: nat)
      requires bufSz > 0
      ensures Valid() && fresh(buf) && Contents() == [] && this.elemSz == elemSz && this.bufSz == bufSz
    {
      this.elemSz, this.bufSz := elemSz, bufSz;
      buf := new byte[bufSz * elemSz];
      head, count := 0, 0;
    }

    /** A push appends, whatever the wrap. */
    method Push(val: seq<byte>)
      requires Valid() && count < bufSz && |val| == elemSz
      modifies this, buf
      ensures Valid() && Contents() == old(Contents()) + [val]
    {
      var idx := (head + count) % bufSz;
      ghost var before := buf[..];
      SlotBelow(elemSz, idx, bufSz);
      MemCpy(buf, idx * elemSz, val);
      assert Slot(buf[..], elemSz, idx) == val;
      GatherPush(before, buf[..], elemSz, bufSz, head, count);
      count := count + 1;
    }

    /** A pop yields the oldest element and keeps the rest in order. */
    method Pop() returns (out: seq<byte>)
      requires Valid() && count > 0
      modifies this
      ensures Valid() && old(Contents()) == [out] + Contents()
    {
      GatherTail(buf[..], elemSz, bufSz, head, count);
      out := buf[head * elemSz..head * elemSz + elemSz];
      assert out == Slot(buf[..], elemSz, head);
      head := (head + 1) % bufSz;
      count := count - 1;
    }
  }
}
