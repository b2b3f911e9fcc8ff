/**
 Which cases the try scan of a select tries. Its counter is 32 bits wide and starts at a random
 number, so that it can wrap within one scan.
 */
module SelectScan {
  import opened Channels
  import opened ChannelFifo
  import opened ChannelTheorems
  import opened ChannelAnswers

  // ---------------------------------------------------------------- which cases a scan tries

  lemma {:induction false} TimesAway(n: int, z: int)
    requires n >= 0
    ensures z >= 1 ==> n * z >= n
    ensures z <= -1 ==> n * z <= -n
  {
  }

  lemma {:induction false} ModIs(a: nat, n: nat, d: nat, rem: nat)
    requires n > 0 && a == n * d + rem && rem < n
    ensures a % n == rem
  {
    assert a == n * (a / n) + a % n;
    var z: int := d - a / n;
    assert n * z == a % n - rem;
    TimesAway(n, z);
  }

  /** The q-th attempt tries case v. */
  ghost predicate Hits(r: nat, n: nat, q: nat, v: nat) {
    q < n && v < n && ScanIndex(r, q, n) == v
  }

  /** Some attempt tries case v. */
  ghost predicate Reaches(r: nat, n: nat, v: nat) {
    exists q: nat :: Hits(r, n, q, v)
  }

  /** Every case is tried. */
  ghost predicate Covers(r: nat, n: nat) {
    forall v: nat :: v < n ==> Reaches(r, n, v)
  }

  /** The condition under which the wrap of the counter at 2^32 does not disturb a scan. */
  predicate ScanSafe(r: nat, n: nat)
    requires n > 0
  {
    r + n <= U32 || U32 % n == 0
  }

  lemma {:induction false} ModShift(a: nat, n: nat, v: nat) returns (q: nat)
    requires v < n
    ensures q < n && (a + q) % n == v
  {
    var d, m := a / n, a % n;
    if m <= v {
      q := v - m;
      ModIs(a + q, n, d, v);
    } else {
      q := n + v - m;
      assert n * (d + 1) == n * d + n;
      ModIs(a + q, n, d + 1, v);
    }
  }

  lemma {:induction false} WrapMod(b: nat, u: nat, n: nat)
    requires n > 0 && u % n == 0 && u <= b
    ensures (b - u) % n == b % n
  {
    var d, e := u / n, b / n;
    var z: int := e - d;
    assert u == n * d && b == n * e + b % n;
    assert b - u == n * z + b % n;
    TimesAway(n, z);
    ModIs(b - u, n, z, b % n);
  }

  lemma {:induction false} SafeReaches(r: nat, n: nat, v: nat)
    requires 0 < n <= SELECT_MAX && r < U32 && v < n && ScanSafe(r, n)
    ensures Reaches(r, n, v)
  {
    var q := ModShift(r, n, v);
    if r + q >= U32 {
      WrapMod(r + q, U32, n);
    }
    assert Hits(r, n, q, v);
  }

  /** The case that a scan disturbed by the wrap leaves out. */
  function LeftOut(r: nat, n: nat): nat
    requires 0 < n && r < U32 < r + n
  {
    var w, g := U32 - r, U32 % n;
    if w <= g then n - 1 else if n - w < g then g else n - w
  }

  lemma {:induction false} UnsafeMisses(r: nat, n: nat, q: nat)
    requires 0 < n <= SELECT_MAX && r < U32 && !ScanSafe(r, n) && q < n
    ensures LeftOut(r, n) < n && ScanIndex(r, q, n) != LeftOut(r, n)
  {
    var w, g, d := U32 - r, U32 % n, U32 / n;
    if q < w {
      var e := w - q;
      if e <= g {
        ModIs(r + q, n, d, g - e);
      } else {
        assert n * (d - 1) == n * d - n;
        ModIs(r + q, n, d - 1, n + g - e);
      }
    } else {
      ModIs(q - w, n, 0, q - w);
    }
  }

  /** A scan tries every case exactly if its counter does not wrap or the number of cases divides 2^32. */
  lemma {:induction false} ScanCoversIff(r: nat, n: nat)
    requires 0 < n <= SELECT_MAX && r < U32
    ensures Covers(r, n) <==> ScanSafe(r, n)
  {
    if ScanSafe(r, n) {
      forall v: nat | v < n ensures Reaches(r, n, v) {
        SafeReaches(r, n, v);
      }
    } else {
      var v := LeftOut(r, n);
      forall q: nat ensures !Hits(r, n, q, v) {
        if q < n {
          UnsafeMisses(r, n, q);
        }
      }
      UnsafeMisses(r, n, 0);
      assert !Reaches(r, n, v);
    }
  }

  // ---------------------------------------------------------------- what a select that may not block has found

  /** A select off a coroutine over n cases that drew r and failed because nothing was ready. */
  ghost predicate FoundNothing(t: seq<State>, k: nat, i: nat, x: nat, r: nat, n: nat) {
    && Run(t) && Call(t, k, i, x) && t[i].act[x].pc == Idle(Fail(EPerm)) && |t[i].act[x].ops| == n
    && x < |t[k + 1].act| && t[k + 1].act[x].pc == Want(Scan(0, r, true, false))
  }

  /** Each of its cases was not ready at some point of the call. */
  ghost predicate NoneReady(t: seq<State>, k: nat, i: nat, x: nat)
    requires i < |t| && x < |t[i].act|
  {
    forall v: nat :: v < |t[i].act[x].ops| ==> NotReadyIn(t, k, i, x, t[i].act[x].ops[v])
  }

  lemma {:induction false} SafeFoundNothing(t: seq<State>, k: nat, i: nat, x: nat, r: nat, n: nat)
    requires FoundNothing(t, k, i, x, r, n) && 0 < n <= SELECT_MAX && r < U32 && ScanSafe(r, n)
    ensures NoneReady(t, k, i, x)
  {
    FailedCall(t, k, i, x);
    ScanCoversIff(r, n);
    var ops := t[i].act[x].ops;
    forall v: nat | v < n ensures NotReadyIn(t, k, i, x, ops[v]) {
      assert Reaches(r, n, v);
      var q: nat :| Hits(r, n, q, v);
      assert NotReadyIn(t, k, i, x, ops[ScanIndex(r, q, n)]);
    }
  }

  function Quietly(pc: Pc, ops: seq<Case>, fx: seq<Fx>): Actor {
    Actor(pc, ops, -1, Ok, No, Ok, No, 0, fx)
  }

  function Fresh(ring: seq<Val>, lock: Lock): Chan {
    Chan(1, ring, false, [], [], lock, ring, [])
  }

  function ReceiveAll(n: nat): (ops: seq<Case>)
    ensures |ops| == n && forall i :: 0 <= i < n ==> ops[i] == Case(i, false, 0)
  {
    seq(n, i requires 0 <= i < n => Case(i, false, 0))
  }

  /** n channels of capacity 1, of which channel v holds 7. */
  function OneFilled(n: nat, v: nat): (h: seq<Chan>)
    ensures |h| == n && forall c :: 0 <= c < n ==> h[c] == Fresh(if c == v then [7] else [], Free)
  {
    seq(n, c requires 0 <= c < n => Fresh(if c == v then [7] else [], Free))
  }

  /** The select of actor 1 at pc, after actor 0 has sent 7 to channel v. */
  function Scanning(n: nat, v: nat, pc: Pc): State {
    State([Quietly(Idle(Ret(0, Ok)), [Case(v, true, 7)], [Fx(0, Ok)]), Quietly(pc, ReceiveAll(n), [])], OneFilled(n, v))
  }

  /** A run whose call of actor 1 began in step 3 and has not returned, with 7 in channel v ever since. */
  ghost predicate InScan(t: seq<State>, n: nat, v: nat) {
    && Run(t) && |t| > 4 && IdleAt(t, 3, 1)
    && forall j: nat :: 3 < j < |t| ==> BusyAt(t, j, 1) && Holding(t[j], v)
  }

  ghost predicate Holding(s: State, v: nat) {
    v < |s.chans| && s.chans[v].ring == [7]
  }

  lemma {:induction false} RunMore(t: seq<State>, a: nat, st: Step, s: State)
    requires Run(t) && NextStep(t[|t| - 1], a, st, s)
    ensures Run(t + [s])
  {
    var t' := t + [s];
    forall i | 0 <= i < |t'| - 1 ensures Next(t'[i], t'[i + 1]) {
      if i < |t| - 1 {
        assert Next(t[i], t[i + 1]);
      }
    }
  }

  /** A further step of the scan. */
  lemma {:induction false} ScanMore(t: seq<State>, n: nat, v: nat, st: Step, s: State)
    requires InScan(t, n, v) && NextStep(t[|t| - 1], 1, st, s) && |s.act| == 2 && !s.act[1].pc.Idle? && Holding(s, v)
    ensures InScan(t + [s], n, v)
  {
    RunMore(t, 1, st, s);
    var t' := t + [s];
    assert IdleAt(t', 3, 1);
    forall j: nat | 3 < j < |t'| ensures BusyAt(t', j, 1) && Holding(t'[j], v) {
      if j < |t| {
        assert BusyAt(t, j, 1);
      }
    }
  }

  function ScanOf(q: nat, r: nat): Why {
    Scan(q, r, true, false)
  }

  /** Actor 1 has the lock of the case it tries q-th. */
  function Trial(n: nat, v: nat, r: nat, q: nat): State
    requires n > 0
  {
    var s, c := Scanning(n, v, Taking(ScanOf(q, r))), ScanIndex(r, q, n);
    s.(chans := s.chans[c := s.chans[c].(lock := HeldBy(1))])
  }

  lemma {:induction false} TrialSteps(n: nat, v: nat, r: nat, q: nat)
    requires 0 < n && q < n && v < n && ScanIndex(r, q, n) != v
    ensures Acquire(Scanning(n, v, Want(ScanOf(q, r))), 1, Trial(n, v, r, q))
    ensures Miss(Trial(n, v, r, q), 1, Scanning(n, v, AfterMiss(ScanOf(q, r), n, false)))
    ensures Holding(Trial(n, v, r, q), v)
  {
    var s, s', u := Scanning(n, v, Want(ScanOf(q, r))), Trial(n, v, r, q), Scanning(n, v, AfterMiss(ScanOf(q, r), n, false));
    var c := ScanIndex(r, q, n);
    assert Cur(s.act[1], ScanOf(q, r)) == c && s.act[1].ops[c].ch == c;
    assert s'.act == SetActor(s, 1, s.act[1].(pc := Taking(ScanOf(q, r)))).act;
    assert s'.act[1].fx + [] == [];
    assert Leave(s', 1, c, AfterMiss(ScanOf(q, r), n, false), []).act == u.act;
    assert Leave(s', 1, c, AfterMiss(ScanOf(q, r), n, false), []).chans == u.chans;
  }

  /** The run up to the q-th attempt. */
  lemma {:induction false} ScanRun(n: nat, v: nat, r: nat, q: nat) returns (t: seq<State>)
    requires 0 < n <= SELECT_MAX && r < U32 && v < n && q < n
    requires forall p: nat :: p < n ==> ScanIndex(r, p, n) != v
    ensures InScan(t, n, v) && t[4] == Scanning(n, v, Want(ScanOf(0, r))) && t[|t| - 1] == Scanning(n, v, Want(ScanOf(q, r)))
  {
    if q == 0 {
      t := ScanStart(n, v, r);
    } else {
      var p: nat := q - 1;
      t := ScanRun(n, v, r, p);
      t := ScanOn(t, n, v, r, p, q);
    }
  }

  lemma {:induction false} ScanOn(t: seq<State>, n: nat, v: nat, r: nat, p: nat, q: nat) returns (t': seq<State>)
    requires InScan(t, n, v) && t[|t| - 1] == Scanning(n, v, Want(ScanOf(p, r)))
    requires v < n && q == p + 1 < n && ScanIndex(r, p, n) != v
    ensures InScan(t', n, v) && t'[4] == t[4] && t'[|t'| - 1] == Scanning(n, v, Want(ScanOf(q, r)))
  {
    TrialSteps(n, v, r, p);
    ScanMore(t, n, v, DoAcquire, Trial(n, v, r, p));
    t' := t + [Trial(n, v, r, p)];
    ScanMore(t', n, v, DoMiss, Scanning(n, v, Want(ScanOf(q, r))));
    t' := t' + [Scanning(n, v, Want(ScanOf(q, r)))];
  }

  function Idler(): Actor {
    Quietly(Idle(Quiet), [], [])
  }

  /** Actor 0 at pc with the send of 7 to channel v, actor 1 idle. */
  function Sending(h: seq<Chan>, v: nat, pc: Pc, fx: seq<Fx>): State {
    State([Quietly(pc, [Case(v, true, 7)], fx), Idler()], h)
  }

  function NoneFilled(n: nat): (h: seq<Chan>)
    ensures |h| == n && forall c :: 0 <= c < n ==> h[c] == Fresh([], Free)
  {
    seq(n, c requires 0 <= c < n => Fresh([], Free))
  }

  lemma {:induction false} SendSteps(n: nat, v: nat)
    requires v < n
    ensures var h := NoneFilled(n); var h1 := h[v := h[v].(lock := HeldBy(0))]; var w := Plain(TryOnly);
      && Initial(State([Idler(), Idler()], h))
      && StartOp(State([Idler(), Idler()], h), 0, Case(v, true, 7), TryOnly, Sending(h, v, Want(w), []))
      && Acquire(Sending(h, v, Want(w), []), 0, Sending(h1, v, Taking(w), []))
      && PushRing(Sending(h1, v, Taking(w), []), 0, Sending(OneFilled(n, v), v, Idle(Ret(0, Ok)), [Fx(0, Ok)]))
  {
    var h := NoneFilled(n);
    var h1 := h[v := h[v].(lock := HeldBy(0))];
    var w := Plain(TryOnly);
    var s0, s1, s2, s3 := State([Idler(), Idler()], h), Sending(h, v, Want(w), []), Sending(h1, v, Taking(w), []),
      Sending(OneFilled(n, v), v, Idle(Ret(0, Ok)), [Fx(0, Ok)]);
    assert SetActor(s0, 0, s0.act[0].(pc := Want(w), ops := [Case(v, true, 7)], fx := [])).act == s1.act;
    assert SetActor(s1, 0, s1.act[0].(pc := Taking(w))).act == s2.act;
    var hr := h1[v].(ring := h1[v].ring + [7], sent := h1[v].sent + [7]);
    var u := Leave(SetChan(s2, v, hr), 0, v, Idle(Ret(0, Ok)), [Fx(0, Ok)]);
    assert s2.act[0].fx + [Fx(0, Ok)] == [Fx(0, Ok)] && h1[v].ring + [7] == [7];
    assert u.act == s3.act;
    assert u.chans == s3.chans;
  }

  lemma {:induction false} ScanStart(n: nat, v: nat, r: nat) returns (t: seq<State>)
    requires 0 < n <= SELECT_MAX && r < U32 && v < n
    ensures InScan(t, n, v) && |t| == 5 && t[4] == Scanning(n, v, Want(ScanOf(0, r)))
  {
    SendSteps(n, v);
    var h := NoneFilled(n);
    var w := Plain(TryOnly);
    var s0, s1, s2, s3, s4 := State([Idler(), Idler()], h), Sending(h, v, Want(w), []),
      Sending(h[v := h[v].(lock := HeldBy(0))], v, Taking(w), []),
      Sending(OneFilled(n, v), v, Idle(Ret(0, Ok)), [Fx(0, Ok)]), Scanning(n, v, Want(ScanOf(0, r)));
    assert StartSelect(s3, 1, ReceiveAll(n), r, false, s4) by {
      assert SetActor(s3, 1, s3.act[1].(pc := Want(ScanOf(0, r)), ops := ReceiveAll(n), fx := [])).act == s4.act;
    }
    t := [s0];
    RunMore(t, 0, DoStartOp(Case(v, true, 7), TryOnly), s1);
    t := t + [s1];
    RunMore(t, 0, DoAcquire, s2);
    t := t + [s2];
    RunMore(t, 0, DoPushRing, s3);
    t := t + [s3];
    RunMore(t, 1, DoStartSelect(ReceiveAll(n), r, false), s4);
    t := t + [s4];
    assert IdleAt(t, 3, 1);
    assert BusyAt(t, 4, 1);
  }

  /** Where the wrap disturbs the scan, a select fails although one of its cases was ready throughout. */
  lemma {:induction false} UnsafeFoundNothing(r: nat, n: nat) returns (t: seq<State>, k: nat, i: nat)
    requires 0 < n <= SELECT_MAX && r < U32 && !ScanSafe(r, n)
    ensures FoundNothing(t, k, i, 1, r, n) && !NoneReady(t, k, i, 1)
  {
    var v, q: nat := LeftOut(r, n), n - 1;
    forall p: nat | p < n ensures ScanIndex(r, p, n) != v {
      UnsafeMisses(r, n, p);
    }
    UnsafeMisses(r, n, 0);
    t := ScanRun(n, v, r, q);
    TrialSteps(n, v, r, q);
    ScanMore(t, n, v, DoAcquire, Trial(n, v, r, q));
    t := t + [Trial(n, v, r, q)];
    var last := Scanning(n, v, Idle(Fail(EPerm)));
    k, i := 3, |t|;
    RunMore(t, 1, DoMiss, last);
    MissedReady(t, n, v, last);
    t := t + [last];
  }

  lemma {:induction false} MissedReady(t: seq<State>, n: nat, v: nat, last: State)
    requires v < n && InScan(t, n, v) && last == Scanning(n, v, Idle(Fail(EPerm)))
    ensures var t' := t + [last]; Call(t', 3, |t|, 1) && !NotReadyIn(t', 3, |t|, 1, ReceiveAll(n)[v])
  {
    var t' := t + [last];
    assert IdleAt(t', 3, 1) && IdleAt(t', |t|, 1);
    forall j: nat | 3 < j < |t| ensures BusyAt(t', j, 1) && Holding(t'[j], v) {
      assert BusyAt(t, j, 1) && Holding(t[j], v);
    }
  }

  /**
   A select that fails because nothing was ready has found each of its cases not ready, in every
   run, exactly if the number it drew does not make the scan wrap, or the number of cases divides
   2^32.
   */
  lemma {:induction false} FoundNothingIff(r: nat, n: nat)
    requires 0 < n <= SELECT_MAX && r < U32
    ensures ScanSafe(r, n) <==> forall t, k: nat, i: nat, x: nat :: FoundNothing(t, k, i, x, r, n) ==> NoneReady(t, k, i, x)
  {
    if ScanSafe(r, n) {
      forall t, k: nat, i: nat, x: nat | FoundNothing(t, k, i, x, r, n) ensures NoneReady(t, k, i, x) {
        SafeFoundNothing(t, k, i, x, r, n);
      }
    } else {
      var t, k, i := UnsafeFoundNothing(r, n);
    }
  }
}
