/** Bits of a natural number, as the received-packet mask uses them. */
module Bits {
  /** m & (1 << d) */
  predicate Bit(m: nat, d: nat) {
    if d == 0 then m % 2 == 1 else Bit(m / 2, d - 1)
  }

  /** m << s */
  function Shl(m: nat, s: nat): nat {
    if s == 0 then m else 2 * Shl(m, s - 1)
  }

  /** m | (1 << d) */
  function SetBit(m: nat, d: nat): nat {
    if d == 0 then (if m % 2 == 1 then m else m + 1) else m % 2 + 2 * SetBit(m / 2, d - 1)
  }

  /** What an unsigned integer of n bits keeps of m. */
  function Trunc(m: nat, n: nat): nat {
    if n == 0 then 0 else m % 2 + 2 * Trunc(m / 2, n - 1)
  }

  lemma {:induction false} BitShl(m: nat, s: nat, d: nat)
    ensures Bit(Shl(m, s), d) <==> d >= s && Bit(m, d - s)
  {
    if s > 0 {
      assert Shl(m, s) / 2 == Shl(m, s - 1);
      if d > 0 {
        BitShl(m, s - 1, d - 1);
      }
    }
  }

  lemma {:induction false} BitTrunc(m: nat, n: nat, d: nat)
    ensures Bit(Trunc(m, n), d) <==> d < n && Bit(m, d)
  {
    if n == 0 {
      BitZero(d);
    } else {
      assert Trunc(m, n) / 2 == Trunc(m / 2, n - 1) && Trunc(m, n) % 2 == m % 2;
      if d > 0 {
        BitTrunc(m / 2, n - 1, d - 1);
      }
    }
  }

  lemma {:induction false} BitZero(d: nat)
    ensures !Bit(0, d)
  {
    if d > 0 {
      BitZero(d - 1);
    }
  }

  lemma {:induction false} BitSet(m: nat, d: nat, e: nat)
    ensures Bit(SetBit(m, d), e) <==> e == d || Bit(m, e)
  {
    if d == 0 {
      assert SetBit(m, 0) / 2 == m / 2;
    } else {
      assert SetBit(m, d) / 2 == SetBit(m / 2, d - 1) && SetBit(m, d) % 2 == m % 2;
      if e > 0 {
        BitSet(m / 2, d - 1, e - 1);
      }
    }
  }
}

/**
 The window of received packet numbers of one level, its ACK frames, and what an ACK does
 to the retransmission flight of the other side (sections 12.3 and 19.3 of RFC 9000).
 */
module PacketWindow {
  import opened Bits

  const WINDOW: nat := 64
  const MAX_PN: nat := 0x1_0000_0000

  datatype Window = Window(have: bool, max: nat, mask: nat)

  /** An ACK of the numbers largest - first .. largest. */
  datatype Ack = NoAck | Ack(largest: nat, first: nat)

  predicate Covers(a: Ack, pn: nat) {
    a.Ack? && pn <= a.largest && a.largest - pn <= a.first
  }

  /** The mask is the set of received numbers among the last 64. */
  ghost predicate Reflects(w: Window, got: set<nat>) {
    && (w.have <==> got != {})
    && (w.have ==> w.max in got && (forall p :: p in got ==> p <= w.max))
    && (w.have ==> forall d: nat :: Bit(w.mask, d) <==> d < WINDOW && d <= w.max && w.max - d in got)
  }

  /** The window after packet pn. */
  function Noted(w: Window, pn: nat): Window {
    if !w.have then Window(true, pn, 1)
    else if pn > w.max then
      Window(true, pn, if pn - w.max >= 64 then 1 else SetBit(Trunc(Shl(w.mask, pn - w.max), 64), 0))
    else if w.max - pn >= 64 then w
    else w.(mask := SetBit(w.mask, w.max - pn))
  }

  predicate IsDup(w: Window, pn: nat) {
    w.have && pn <= w.max && w.max - pn < 64 && Bit(w.mask, w.max - pn)
  }

  /** The last of the bits k, k + 1, .. that are all set, 63 at most. */
  function LastOne(mask: nat, k: nat): (r: nat)
    requires k <= 63
    ensures k <= r <= 63
    ensures forall d: nat :: k < d <= r ==> Bit(mask, d)
    ensures r < 63 ==> !Bit(mask, r + 1)
    decreases 63 - k
  {
    if k < 63 && Bit(mask, k + 1) then LastOne(mask, k + 1) else k
  }

  function AckOf(w: Window): Ack {
    if w.have then Ack(w.max, LastOne(w.mask, 0)) else NoAck
  }

  class Receiver {
    var rxHave: bool
    var rxMax: nat
    var rxMask: nat

    ghost function State(): Window
      reads this
    {
      Window(rxHave, rxMax, rxMask)
    }

    constructor ()
      ensures State() == Window(false, 0, 0)
    {
      rxHave, rxMax, rxMask := false, 0, 0;
    }

    /** Notes packet pn; a duplicate leaves the window as it is. */
    method NoteRx(pn: nat) returns (dup: bool)
      modifies this
      ensures dup <==> IsDup(old(State()), pn)
      ensures State() == if dup then old(State()) else Noted(old(State()), pn)
    {
      if !rxHave {
        rxHave, rxMax, rxMask := true, pn, 1;
        return false;
      }
      if pn > rxMax {
        var shift := pn - rxMax;
        if shift >= 64 {
          rxMask := 1;
        } else {
          rxMask := SetBit(Trunc(Shl(rxMask, shift), 64), 0);
        }
        rxMax := pn;
        return false;
      }
      var d := rxMax - pn;
      if d >= 64 {
        return false;
      }
      if Bit(rxMask, d) {
        return true;
      }
      rxMask := SetBit(rxMask, d);
      return false;
    }

    /** The run of received numbers that ends at the largest. */
    method EncodeAck() returns (a: Ack)
      ensures a == AckOf(State())
    {
      if !rxHave {
        return NoAck;
      }
      var first := 0;
      while first < 63 && Bit(rxMask, first + 1)
        invariant first <= 63 && LastOne(rxMask, first) == LastOne(rxMask, 0)
      {
        first := first + 1;
      }
      return Ack(rxMax, first);
    }
  }

  // ---------------------------------------------------------------- what the window knows

  /** Noting a packet keeps the mask equal to the set of received numbers. */
  lemma {:induction false} NotedReflects(w: Window, got: set<nat>, pn: nat)
    requires Reflects(w, got)
    ensures Reflects(Noted(w, pn), got + {pn})
    ensures IsDup(w, pn) <==> pn in got && w.max - pn < WINDOW
    ensures IsDup(w, pn) ==> Reflects(w, got + {pn})
  {
    if !w.have {
      FirstBit(pn);
      assert got + {pn} == {pn};
    } else if pn > w.max {
      Advance(w, got, pn, Noted(w, pn).mask);
    } else if w.max - pn < 64 {
      Fill(w, got, pn, Noted(w, pn).mask);
      assert IsDup(w, pn) ==> got + {pn} == got;
    }
  }

  /** The window after any arrivals, duplicates skipped as the caller skips them. */
  function After(arrivals: seq<nat>): Window {
    if arrivals == [] then Window(false, 0, 0) else
      var w, pn := After(arrivals[..|arrivals| - 1]), arrivals[|arrivals| - 1];
      if IsDup(w, pn) then w else Noted(w, pn)
  }

  ghost function Numbers(arrivals: seq<nat>): set<nat> {
    set pn | pn in arrivals
  }

  /** After any arrivals the mask is exactly the received numbers among the last 64. */
  lemma {:induction false} WindowExact(arrivals: seq<nat>)
    ensures Reflects(After(arrivals), Numbers(arrivals))
  {
    if arrivals != [] {
      var init, pn := arrivals[..|arrivals| - 1], arrivals[|arrivals| - 1];
      WindowExact(init);
      NotedReflects(After(init), Numbers(init), pn);
      assert Numbers(arrivals) == Numbers(init) + {pn};
    }
  }

  /** A packet is reported as a duplicate if and only if it arrived before and is within 64 of the largest. */
  lemma {:induction false} DuplicateIff(arrivals: seq<nat>, pn: nat)
    ensures IsDup(After(arrivals), pn) <==> pn in arrivals && After(arrivals).max - pn < WINDOW
  {
    WindowExact(arrivals);
    NotedReflects(After(arrivals), Numbers(arrivals), pn);
  }

  /** Beyond the window a repeated packet passes as new. */
  lemma {:induction false} OldDuplicatePasses()
    ensures 0 in [0, 64] && !IsDup(After([0, 64]), 0)
  {
    DuplicateIff([0, 64], 0);
    WindowExact([0, 64]);
    assert 64 in Numbers([0, 64]);
  }

  /** An encoded ACK covers the largest number and only numbers that were received, as far down as they are consecutive. */
  lemma {:induction false} AckCoversReceived(w: Window, got: set<nat>)
    requires Reflects(w, got)
    ensures AckOf(w).Ack? <==> got != {}
    ensures forall pn: nat :: Covers(AckOf(w), pn) ==> pn in got
    ensures var a := AckOf(w);
      a.Ack? ==> a.largest in got && a.first <= a.largest && (a.first < WINDOW - 1 && a.first < a.largest ==> a.largest - a.first - 1 !in got)
  {
    if w.have {
      var a := AckOf(w);
      assert Bit(w.mask, 0);
      assert a.first > 0 ==> Bit(w.mask, a.first);
      assert a.first < 63 ==> !Bit(w.mask, a.first + 1);
      forall pn: nat | Covers(a, pn)
        ensures pn in got
      {
        assert Bit(w.mask, w.max - pn);
      }
    }
  }

  /** An encoded ACK covers a number if and only if that number and every larger one up to the largest arrived, within the window. */
  lemma {:induction false} AckCoversIff(w: Window, got: set<nat>, pn: nat)
    requires Reflects(w, got)
    ensures Covers(AckOf(w), pn) <==> w.have && pn <= w.max < pn + WINDOW && forall q: nat :: pn <= q <= w.max ==> q in got
  {
    AckCoversReceived(w, got);
    if w.have {
      var a := AckOf(w);
      if Covers(a, pn) {
        forall q: nat | pn <= q <= w.max
          ensures q in got
        {
          assert Covers(a, q);
        }
      } else if pn <= w.max < pn + WINDOW {
        assert !Bit(w.mask, a.first + 1);
        assert w.max - (a.first + 1) !in got;
      }
    }
  }

  lemma {:induction false} FirstBit(pn: nat)
    ensures Reflects(Window(true, pn, 1), {pn})
  {
    forall d: nat
      ensures Bit(1, d) <==> d == 0
    {
      if d > 0 {
        BitZero(d - 1);
      }
    }
  }

  /** A new largest number shifts the window. */
  lemma {:induction false} Advance(w: Window, got: set<nat>, pn: nat, mask: nat)
    requires Reflects(w, got) && w.have && pn > w.max
    requires mask == if pn - w.max >= 64 then 1 else SetBit(Trunc(Shl(w.mask, pn - w.max), 64), 0)
    ensures Reflects(Window(true, pn, mask), got + {pn})
  {
    var s := pn - w.max;
    forall d: nat
      ensures Bit(mask, d) <==> d < WINDOW && d <= pn && pn - d in got + {pn}
    {
      if s >= 64 {
        if d > 0 {
          BitZero(d - 1);
        }
      } else {
        var sh := Shl(w.mask, s);
        BitSet(Trunc(sh, 64), 0, d);
        BitTrunc(sh, 64, d);
        BitShl(w.mask, s, d);
        assert d >= s ==> w.max - (d - s) == pn - d;
      }
    }
  }

  /** An older number inside the window sets its bit. */
  lemma {:induction false} Fill(w: Window, got: set<nat>, pn: nat, mask: nat)
    requires Reflects(w, got) && w.have && pn <= w.max && w.max - pn < 64 && mask == SetBit(w.mask, w.max - pn)
    ensures Reflects(Window(true, w.max, mask), got + {pn})
  {
    forall d: nat
      ensures Bit(mask, d) <==> d < WINDOW && d <= w.max && w.max - d in got + {pn}
    {
      BitSet(w.mask, w.max - pn, d);
    }
  }

  // ---------------------------------------------------------------- both sides

  datatype Flight = Flight(live: bool, pn: nat)

  /** s_quic_apply_ack. */
  function ApplyAck(f: Flight, largest: nat, first: nat): Flight {
    var low := if largest >= first then largest - first else 0;
    if f.live && low <= f.pn <= largest then f.(live := false) else f
  }

  /**
   One side sends numbered packets and keeps the latest retransmittable one in flight; the
   other opens any of them in any order, any number of times, and sends ACKs that may
   arrive late, repeatedly or never. `cleared` is history.
   */
  datatype Sys = Sys(next: nat, flight: Flight, w: Window, got: set<nat>, acks: set<Ack>, cleared: set<nat>)

  ghost predicate Send(s: Sys, keep: bool, s': Sys) {
    && s.next < MAX_PN
    && s' == s.(next := s.next + 1, flight := if keep then Flight(true, s.next) else s.flight)
  }

  /** The peer opens a packet that was sent, and notes its number. */
  ghost predicate Open(s: Sys, pn: nat, s': Sys) {
    && pn < s.next
    && s' == s.(w := if IsDup(s.w, pn) then s.w else Noted(s.w, pn), got := s.got + {pn})
  }

  ghost predicate SendAck(s: Sys, s': Sys) {
    AckOf(s.w).Ack? && s' == s.(acks := s.acks + {AckOf(s.w)})
  }

  ghost predicate TakeAck(s: Sys, a: Ack, s': Sys) {
    && a in s.acks && a.Ack?
    && var f := ApplyAck(s.flight, a.largest, a.first);
    && s' == s.(flight := f, cleared := if s.flight.live && !f.live then s.cleared + {s.flight.pn} else s.cleared)
  }

  ghost predicate Next(s: Sys, s': Sys) {
    || (exists keep: bool :: Send(s, keep, s'))
    || (exists pn: nat :: Open(s, pn, s'))
    || SendAck(s, s')
    || (exists a: Ack :: TakeAck(s, a, s'))
  }

  ghost predicate Run(t: seq<Sys>) {
    && |t| > 0 && t[0] == Sys(0, Flight(false, 0), Window(false, 0, 0), {}, {}, {})
    && forall i: nat :: i + 1 < |t| ==> Next(t[i], t[i + 1])
  }

  ghost predicate Inv(s: Sys) {
    && Reflects(s.w, s.got)
    && (forall a: Ack, pn: nat :: a in s.acks && Covers(a, pn) ==> pn in s.got)
    && (forall a: Ack :: a in s.acks && a.Ack? ==> a.first <= a.largest)
    && s.cleared <= s.got && (forall pn :: pn in s.got ==> pn < s.next)
  }

  lemma {:induction false} NextInv(s: Sys, s': Sys)
    requires Inv(s) && Next(s, s')
    ensures Inv(s')
  {
    if pn: nat :| Open(s, pn, s') {
      NotedReflects(s.w, s.got, pn);
    } else if SendAck(s, s') {
      AckCoversReceived(s.w, s.got);
    } else if a: Ack :| TakeAck(s, a, s') {
      assert s.flight.live && !s'.flight.live ==> Covers(a, s.flight.pn);
    }
  }

  /** In every run, an ACK clears a flight only if the peer has opened that very packet. */
  lemma {:induction false} ClearedWasOpened(t: seq<Sys>, i: nat)
    requires Run(t) && i < |t|
    ensures t[i].cleared <= t[i].got && Inv(t[i])
  {
    if i > 0 {
      ClearedWasOpened(t, i - 1);
      assert Next(t[i - 1], t[i - 1 + 1]);
      NextInv(t[i - 1], t[i]);
    }
  }

  /** An ACK range clears a live flight if and only if the flight's number is in the range, and changes nothing else. */
  lemma {:induction false} ApplyAckIff(f: Flight, largest: nat, first: nat)
    ensures ApplyAck(f, largest, first).pn == f.pn
    ensures ApplyAck(f, largest, first).live <==> f.live && !(f.pn <= largest <= f.pn + first)
    ensures f.pn <= largest <= f.pn + first <==> Covers(Ack(largest, first), f.pn)
  {
  }

  /** Taking an ACK clears the flight if and only if it is live and covered, and does nothing else. */
  lemma {:induction false} TakenAckClearsIff(t: seq<Sys>, i: nat, a: Ack)
    requires Run(t) && i + 1 < |t| && TakeAck(t[i], a, t[i + 1])
    ensures var s, s', hit := t[i], t[i + 1], t[i].flight.live && Covers(a, t[i].flight.pn);
      && s'.flight == Flight(s.flight.live && !hit, s.flight.pn)
      && s'.cleared == s.cleared + (if hit then {s.flight.pn} else {})
      && s' == s.(flight := s'.flight, cleared := s'.cleared)
  {
    ApplyAckIff(t[i].flight, a.largest, a.first);
  }

  /**
   Which ACKs clear a flight: an ACK that the peer sent in step i clears a live flight pn when it
   arrives in step j if and only if the peer had by then opened pn and every number after it up
   to its largest, which is within the window of pn.
   */
  lemma {:induction false} ArrivedAckClearsIff(t: seq<Sys>, i: nat, j: nat, pn: nat)
    requires Run(t) && i < j && j + 1 < |t| && SendAck(t[i], t[i + 1]) && TakeAck(t[j], AckOf(t[i].w), t[j + 1])
    requires t[j].flight == Flight(true, pn)
    ensures !t[j + 1].flight.live <==>
              t[i].w.max in t[i].got && pn <= t[i].w.max < pn + WINDOW && forall q: nat :: pn <= q <= t[i].w.max ==> q in t[i].got
    ensures !t[j + 1].flight.live ==> pn in t[j + 1].cleared
  {
    ClearedWasOpened(t, i);
    AckCoversIff(t[i].w, t[i].got, pn);
    TakenAckClearsIff(t, j, AckOf(t[i].w));
  }

  /** The usual case: the ACK of a peer that has opened the flight's packet, and nothing newer, clears the flight when it arrives. */
  lemma {:induction false} LatestAckClears(t: seq<Sys>, i: nat, j: nat, pn: nat)
    requires Run(t) && i < j && j + 1 < |t| && SendAck(t[i], t[i + 1]) && TakeAck(t[j], AckOf(t[i].w), t[j + 1])
    requires t[j].flight == Flight(true, pn) && pn in t[i].got && forall q :: q in t[i].got ==> q <= pn
    ensures t[j + 1].flight == Flight(false, pn) && pn in t[j + 1].cleared
  {
    ClearedWasOpened(t, i);
    assert t[i].w.max == pn;
    ArrivedAckClearsIff(t, i, j, pn);
    TakenAckClearsIff(t, j, AckOf(t[i].w));
  }
}
