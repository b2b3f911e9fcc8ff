/**
 The ticket spin lock: two 32-bit counters that wrap around. Threads interleave at each
 atomic access. `n` in a program counter is the number of the thread's arrival; the ticket
 it drew is that number modulo 2^32, and only the ticket is compared. `taken` and
 `entered` record the order of arrivals and of entries.
 */
module TicketLock {
  const M: nat := 0x1_0000_0000

  datatype Pc =
    | Out
    | Spin(n: nat)                   // drew ticket n % M
    | Hold(n: nat)
    | Unlocking(n: nat, cur: nat)    // has loaded now_serving

  datatype State = State(next: nat, serving: nat, th: seq<Pc>, taken: seq<nat>, entered: seq<nat>, released: nat)

  ghost predicate Take(s: State, i: nat, s': State) {
    && i < |s.th| && s.th[i] == Out
    && s' == s.(next := (s.next + 1) % M, th := s.th[i := Spin(|s.taken|)], taken := s.taken + [i])
  }

  ghost predicate Enter(s: State, i: nat, s': State) {
    && i < |s.th| && s.th[i].Spin? && s.serving == s.th[i].n % M
    && s' == s.(th := s.th[i := Hold(s.th[i].n)], entered := s.entered + [i])
  }

  ghost predicate LoadServing(s: State, i: nat, s': State) {
    && i < |s.th| && s.th[i].Hold?
    && s' == s.(th := s.th[i := Unlocking(s.th[i].n, s.serving)])
  }

  ghost predicate StoreServing(s: State, i: nat, s': State) {
    && i < |s.th| && s.th[i].Unlocking?
    && s' == s.(serving := (s.th[i].cur + 1) % M, th := s.th[i := Out], released := s.released + 1)
  }

  ghost predicate NextBy(s: State, i: nat, s': State) {
    Take(s, i, s') || Enter(s, i, s') || LoadServing(s, i, s') || StoreServing(s, i, s')
  }

  ghost predicate Next(s: State, s': State) {
    exists i: nat :: NextBy(s, i, s')
  }

  ghost predicate Initial(s: State) {
    && s.next == 0 && s.serving == 0 && s.taken == [] && s.entered == [] && s.released == 0
    && (forall i :: 0 <= i < |s.th| ==> s.th[i] == Out)
  }

  ghost predicate Run(t: seq<State>) {
    && |t| > 0 && Initial(t[0])
    && forall i :: 0 <= i < |t| - 1 ==> Next(t[i], t[i + 1])
  }

  predicate Inside(pc: Pc) {
    pc.Hold? || pc.Unlocking?
  }

  // ---------------------------------------------------------------- invariant

  /** Threads that hold or wait for a ticket. */
  function Outstanding(th: seq<Pc>): (k: nat)
    ensures k <= |th|
  {
    if th == [] then 0 else (if th[0].Out? then 0 else 1) + Outstanding(th[1..])
  }

  lemma {:induction false} OutstandingUpdate(th: seq<Pc>, i: nat, pc: Pc)
    requires i < |th|
    ensures Outstanding(th[i := pc]) - (if pc.Out? then 0 else 1) == Outstanding(th) - (if th[i].Out? then 0 else 1)
  {
    if i == 0 {
      assert th[i := pc][1..] == th[1..];
    } else {
      assert th[i := pc][1..] == th[1..][i - 1 := pc];
      OutstandingUpdate(th[1..], i - 1, pc);
    }
  }

  ghost predicate ThreadOk(s: State, i: nat, pc: Pc) {
    match pc
    case Out => true
    case Spin(n) => s.released <= n < |s.taken| && s.taken[n] == i
    case Hold(n) => n == s.released && n < |s.taken| && s.taken[n] == i && |s.entered| == n + 1
    case Unlocking(n, cur) => n == s.released && n < |s.taken| && s.taken[n] == i && |s.entered| == n + 1 && cur == s.serving
  }

  ghost predicate Inv(s: State) {
    && s.next == |s.taken| % M && s.serving == s.released % M
    && s.released <= |s.taken| && Outstanding(s.th) == |s.taken| - s.released
    && (forall i :: 0 <= i < |s.th| ==> ThreadOk(s, i, s.th[i]))
    && s.entered <= s.taken && s.released <= |s.entered| <= s.released + 1
    && (|s.entered| == s.released + 1 ==> s.taken[s.released] < |s.th| && Inside(s.th[s.taken[s.released]]))
    && (forall n :: s.released <= n < |s.taken| ==> s.taken[n] < |s.th| && !s.th[s.taken[n]].Out? && s.th[s.taken[n]].n == n)
  }

  /** Equal tickets within a window of M arrivals are the same arrival. */
  lemma {:induction false} TicketsDistinct(r: nat, n: nat)
    requires r <= n < r + M && r % M == n % M
    ensures r == n
  {
    assert r == M * (r / M) + r % M && n == M * (n / M) + n % M;
  }

  lemma {:induction false} WrapNext(a: nat)
    ensures (a % M + 1) % M == (a + 1) % M
  {
  }

  lemma {:induction false} EnterInv(s: State, i: nat, s': State)
    requires Inv(s) && Enter(s, i, s') && |s.th| <= M
    ensures Inv(s')
  {
    OutstandingUpdate(s.th, i, s'.th[i]);
    assert ThreadOk(s, i, s.th[i]);
    TicketsDistinct(s.released, s.th[i].n);
    assert s'.entered == s.taken[..|s.entered| + 1];
  }

  lemma {:induction false} TakeInv(s: State, i: nat, s': State)
    requires Inv(s) && Take(s, i, s')
    ensures Inv(s')
  {
    OutstandingUpdate(s.th, i, s'.th[i]);
    WrapNext(|s.taken|);
  }

  lemma {:induction false} UnlockInv(s: State, i: nat, s': State)
    requires Inv(s) && (LoadServing(s, i, s') || StoreServing(s, i, s'))
    ensures Inv(s')
  {
    OutstandingUpdate(s.th, i, s'.th[i]);
    assert ThreadOk(s, i, s.th[i]);
    WrapNext(s.released);
  }

  lemma {:induction false} NextInv(s: State, i: nat, s': State)
    requires Inv(s) && NextBy(s, i, s') && |s.th| <= M
    ensures Inv(s') && |s'.th| == |s.th|
  {
    if Enter(s, i, s') {
      EnterInv(s, i, s');
    } else if Take(s, i, s') {
      TakeInv(s, i, s');
    } else {
      UnlockInv(s, i, s');
    }
  }

  lemma {:induction false} RunInv(t: seq<State>, i: nat)
    requires Run(t) && i < |t| && |t[0].th| <= M
    ensures Inv(t[i]) && |t[i].th| == |t[0].th|
  {
    if i == 0 {
      NoneOutstanding(t[0].th);
    } else {
      RunInv(t, i - 1);
      assert Next(t[i - 1], t[i - 1 + 1]);
      var k: nat :| NextBy(t[i - 1], k, t[i]);
      NextInv(t[i - 1], k, t[i]);
    }
  }

  lemma {:induction false} NoneOutstanding(th: seq<Pc>)
    requires forall i :: 0 <= i < |th| ==> th[i] == Out
    ensures Outstanding(th) == 0
  {
    if th != [] {
      NoneOutstanding(th[1..]);
    }
  }

  // ---------------------------------------------------------------- theorems

  /** Mutual exclusion and strict arrival order, across any number of wraparounds, for up to 2^32 threads. */
  lemma {:induction false} ExclusionAndOrder(t: seq<State>, i: nat, a: nat, b: nat)
    requires Run(t) && i < |t| && |t[0].th| <= M
    ensures a < |t[i].th| && b < |t[i].th| && Inside(t[i].th[a]) && Inside(t[i].th[b]) ==> a == b
    ensures t[i].entered <= t[i].taken
  {
    RunInv(t, i);
    if a < |t[i].th| && b < |t[i].th| && Inside(t[i].th[a]) && Inside(t[i].th[b]) {
      assert ThreadOk(t[i], a, t[i].th[a]) && ThreadOk(t[i], b, t[i].th[b]);
    }
  }

  /** After j of n threads have drawn a ticket and none has entered. */
  ghost function Queued(n: nat, j: nat): State
    requires j <= n
  {
    State(j % M, 0, seq(n, i requires 0 <= i < n => if i < j then Spin(i) else Out), seq(j, i requires 0 <= i < j => i), [], 0)
  }

  /** The run in which M + 1 threads arrive and the first and the last of them enter. */
  ghost function Overflow(n: nat, j: nat): State
    requires M < n && j <= M + 3
  {
    var q := Queued(n, M + 1);
    if j <= M + 1 then Queued(n, j)
    else if j == M + 2 then q.(th := q.th[0 := Hold(0)], entered := [0])
    else q.(th := q.th[0 := Hold(0)][M := Hold(M)], entered := [0, M])
  }

  lemma {:induction false} OverflowStep(n: nat, j: nat)
    requires M < n && j < M + 3
    ensures Next(Overflow(n, j), Overflow(n, j + 1))
  {
    var s, s' := Overflow(n, j), Overflow(n, j + 1);
    if j <= M {
      WrapNext(j);
      assert s'.th == s.th[j := Spin(j)];
      assert s'.taken == s.taken + [j];
      assert Take(s, j, s');
      assert NextBy(s, j, s');
    } else if j == M + 1 {
      assert Enter(s, 0, s');
      assert NextBy(s, 0, s');
    } else {
      assert s'.entered == s.entered + [M];
      assert Enter(s, M, s');
      assert NextBy(s, M, s');
    }
  }

  /** The bound is sharp: with more than 2^32 threads two of them can be inside at once. */
  lemma {:induction false} ExclusionFailsBeyond(n: nat) returns (t: seq<State>)
    requires M < n
    ensures Run(t) && |t[0].th| == n
    ensures var s := t[|t| - 1]; |s.th| == n && Inside(s.th[0]) && Inside(s.th[M])
  {
    t := seq(M + 4, j requires 0 <= j < M + 4 => Overflow(n, j));
    forall i | 0 <= i < |t| - 1
      ensures Next(t[i], t[i + 1])
    {
      OverflowStep(n, i);
    }
  }
}
