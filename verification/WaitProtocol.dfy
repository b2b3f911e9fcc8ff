/**
 The wait protocol around one structure (a lock and a FIFO list of waiters), at the
 granularity of single stores. Waiters park a node, deciders unlink it, raise
 `waker_busy`, flip the status, wake the coroutine and lower the flag again.

 A decider is a single grant (mutex unlock, cond signal, channel), a batch grant
 (rwlock unlock, broadcast, wait group, close) or an outside decision (cancel or
 deadline), which runs on the worker of its target, so the target does not run
 meanwhile.
 */
module WaitProtocol {
  import opened Lists

  datatype Lock = Free | ByWaiter(c: nat) | ByDecider(d: nat)

  datatype WaiterPc =
    | Out           // not in a blocking call of this structure
    | Locked        // holds the lock, may still find the resource free
    | Linked        // pushed its node, lock still held
    | Loop          // s_wait_block: reads the status, suspends while it is WAITING
    | Sync          // saw a decision, waits for waker_busy to clear

  datatype Busy = No | By(d: nat)

  /** Which operation of which decider decided the wait. */
  datatype Verdict = None | Op(d: nat, k: nat)

  datatype Waiter = Waiter(pc: WaiterPc, waiting: bool, busy: Busy, decisions: nat, verdict: Verdict)

  datatype Kind = Single | Batch | Cancel(t: nat)

  datatype DeciderPc =
    | Idle
    | Want
    | Held(todo: seq<nat>, granted: seq<nat>)                  // lock held; todo is unlinked and undecided
    | Storing(todo: seq<nat>, granted: seq<nat>)               // waker_busy of todo[0] is up
    | Flipped(n: nat, todo: seq<nat>, granted: seq<nat>)       // status of n is final, lock still held
    | Waking(n: nat)                                           // lock released
    | Ending(granted: seq<nat>)

  datatype Decider = Decider(pc: DeciderPc, kind: Kind, op: nat)

  datatype State = State(lock: Lock, list: seq<nat>, ws: seq<Waiter>, ds: seq<Decider>)

  // ---------------------------------------------------------------- waiter steps

  /** No outside decider is at work on c: c's worker is free to run c. */
  ghost predicate Runnable(s: State, c: nat) {
    forall d :: 0 <= d < |s.ds| && s.ds[d].kind == Cancel(c) ==> s.ds[d].pc == Idle
  }

  ghost predicate WaiterLock(s: State, c: nat, s': State) {
    && c < |s.ws| && s.ws[c].pc == Out && s.lock == Free
    && s' == s.(lock := ByWaiter(c), ws := s.ws[c := s.ws[c].(pc := Locked)])
  }

  ghost predicate WaiterLeave(s: State, c: nat, s': State) {
    && c < |s.ws| && s.ws[c].pc == Locked
    && s' == s.(lock := Free, ws := s.ws[c := s.ws[c].(pc := Out)])
  }

  /** s_wait_park. */
  ghost predicate WaiterPark(s: State, c: nat, s': State) {
    && c < |s.ws| && s.ws[c].pc == Locked
    && s' == s.(list := s.list + [c], ws := s.ws[c := Waiter(Linked, true, No, 0, None)])
  }

  ghost predicate WaiterUnlock(s: State, c: nat, s': State) {
    && c < |s.ws| && s.ws[c].pc == Linked
    && s' == s.(lock := Free, ws := s.ws[c := s.ws[c].(pc := Loop)])
  }

  ghost predicate WaiterSee(s: State, c: nat, s': State) {
    && c < |s.ws| && s.ws[c].pc == Loop && !s.ws[c].waiting && Runnable(s, c)
    && s' == s.(ws := s.ws[c := s.ws[c].(pc := Sync)])
  }

  /** s_wait_decider_sync has read waker_busy == 0; the blocking call returns. */
  ghost predicate WaiterReturn(s: State, c: nat, s': State) {
    && c < |s.ws| && s.ws[c].pc == Sync && s.ws[c].busy == No && Runnable(s, c)
    && s' == s.(ws := s.ws[c := s.ws[c].(pc := Out)])
  }

  // ---------------------------------------------------------------- decider steps

  function SetPc(s: State, d: nat, pc: DeciderPc): State
    requires d < |s.ds|
  {
    s.(ds := s.ds[d := s.ds[d].(pc := pc)])
  }

  /** s_waiter_wake reads the status without the lock before it goes on. */
  ghost predicate DeciderStart(s: State, d: nat, kind: Kind, s': State) {
    && d < |s.ds| && s.ds[d].pc == Idle
    && (kind.Cancel? ==> kind.t < |s.ws| && s.ws[kind.t].pc == Loop && s.ws[kind.t].waiting && Runnable(s, kind.t))
    && s' == s.(ds := s.ds[d := Decider(Want, kind, s.ds[d].op + 1)])
  }

  ghost predicate DeciderLock(s: State, d: nat, s': State) {
    && d < |s.ds| && s.ds[d].pc == Want && s.lock == Free
    && s' == SetPc(s, d, Held([], [])).(lock := ByDecider(d))
  }

  /** Unlink the next waiter, the first k of them, or the canceled one. */
  ghost predicate DeciderTake(s: State, d: nat, k: nat, s': State) {
    && d < |s.ds| && s.ds[d].pc.Held? && s.ds[d].pc.todo == []
    && var g := s.ds[d].pc.granted;
    && match s.ds[d].kind
       case Single => g == [] && |s.list| > 0 && s' == SetPc(s, d, Held(s.list[..1], g)).(list := s.list[1..])
       case Batch => 0 < k <= |s.list| && s' == SetPc(s, d, Held(s.list[..k], g)).(list := s.list[k..])
       case Cancel(t) =>
         && g == [] && t < |s.ws| && s.ws[t].waiting
         && s' == SetPc(s, d, Held([t], g)).(list := Remove(s.list, t))
  }

  ghost predicate RaiseBusy(s: State, d: nat, s': State) {
    && d < |s.ds| && s.ds[d].pc.Held? && s.ds[d].pc.todo != []
    && var n := s.ds[d].pc.todo[0];
    && n < |s.ws|
    && s' == SetPc(s, d, Storing(s.ds[d].pc.todo, s.ds[d].pc.granted)).(ws := s.ws[n := s.ws[n].(busy := By(d))])
  }

  ghost predicate FlipStatus(s: State, d: nat, s': State) {
    && d < |s.ds| && s.ds[d].pc.Storing? && s.ds[d].pc.todo != []
    && var n := s.ds[d].pc.todo[0];
    && n < |s.ws|
    && s' == SetPc(s, d, Flipped(n, s.ds[d].pc.todo[1..], s.ds[d].pc.granted)).(
         ws := s.ws[n := s.ws[n].(waiting := false, decisions := s.ws[n].decisions + 1, verdict := Op(d, s.ds[d].op))])
  }

  /** A batch wakes under the lock and chains the node. */
  ghost predicate WakeLocked(s: State, d: nat, s': State) {
    && d < |s.ds| && s.ds[d].pc.Flipped? && s.ds[d].kind == Batch
    && s' == SetPc(s, d, Held(s.ds[d].pc.todo, [s.ds[d].pc.n] + s.ds[d].pc.granted))
  }

  /** A single or outside decider unlocks before it wakes. */
  ghost predicate UnlockGranted(s: State, d: nat, s': State) {
    && d < |s.ds| && s.ds[d].pc.Flipped? && s.ds[d].kind != Batch
    && s' == SetPc(s, d, Waking(s.ds[d].pc.n)).(lock := Free)
  }

  ghost predicate WakeUnlocked(s: State, d: nat, s': State) {
    && d < |s.ds| && s.ds[d].pc.Waking?
    && s' == SetPc(s, d, Ending([s.ds[d].pc.n]))
  }

  /** Unlock with nothing left to decide: end of a batch, or nobody was waiting. */
  ghost predicate UnlockDone(s: State, d: nat, s': State) {
    && d < |s.ds| && s.ds[d].pc.Held? && s.ds[d].pc.todo == []
    && s' == SetPc(s, d, Ending(s.ds[d].pc.granted)).(lock := Free)
  }

  /** s_wait_decide_end on the next node of the chain. */
  ghost predicate LowerBusy(s: State, d: nat, s': State) {
    && d < |s.ds| && s.ds[d].pc.Ending? && s.ds[d].pc.granted != []
    && var n := s.ds[d].pc.granted[0];
    && n < |s.ws|
    && s' == SetPc(s, d, Ending(s.ds[d].pc.granted[1..])).(ws := s.ws[n := s.ws[n].(busy := No)])
  }

  ghost predicate DeciderReturn(s: State, d: nat, s': State) {
    && d < |s.ds| && s.ds[d].pc == Ending([])
    && s' == SetPc(s, d, Idle)
  }

  // ---------------------------------------------------------------- the machine

  ghost predicate WaiterNext(s: State, c: nat, s': State) {
    || WaiterLock(s, c, s') || WaiterLeave(s, c, s') || WaiterPark(s, c, s') || WaiterUnlock(s, c, s')
    || WaiterSee(s, c, s') || WaiterReturn(s, c, s')
  }

  ghost predicate DeciderNext(s: State, d: nat, kind: Kind, k: nat, s': State) {
    || DeciderStart(s, d, kind, s') || DeciderLock(s, d, s') || DeciderTake(s, d, k, s') || RaiseBusy(s, d, s')
    || FlipStatus(s, d, s') || WakeLocked(s, d, s') || UnlockGranted(s, d, s') || WakeUnlocked(s, d, s')
    || UnlockDone(s, d, s') || LowerBusy(s, d, s') || DeciderReturn(s, d, s')
  }

  ghost predicate Next(s: State, s': State) {
    || (exists c: nat :: WaiterNext(s, c, s'))
    || (exists d: nat, kind: Kind, k: nat :: DeciderNext(s, d, kind, k, s'))
  }

  ghost predicate Initial(s: State) {
    && s.lock == Free && s.list == []
    && (forall c :: 0 <= c < |s.ws| ==> s.ws[c] == Waiter(Out, false, No, 0, None))
    && (forall d :: 0 <= d < |s.ds| ==> s.ds[d].pc == Idle)
  }

  ghost predicate Run(t: seq<State>) {
    && |t| > 0 && Initial(t[0])
    && forall i :: 0 <= i < |t| - 1 ==> Next(t[i], t[i + 1])
  }

  // ---------------------------------------------------------------- invariant

  predicate InWait(w: Waiter) {
    w.pc == Linked || w.pc == Loop || w.pc == Sync
  }

  predicate HoldsLock(pc: DeciderPc) {
    pc.Held? || pc.Storing? || pc.Flipped?
  }

  /** Nodes the decider has unlinked and not yet decided. */
  function Pre(pc: DeciderPc): seq<nat> {
    if pc.Held? || pc.Storing? || pc.Flipped? then pc.todo else []
  }

  /** Nodes the decider has decided and may still touch. */
  function Post(pc: DeciderPc): seq<nat> {
    match pc
    case Held(_, g) => g
    case Storing(_, g) => g
    case Flipped(n, _, g) => [n] + g
    case Waking(n) => [n]
    case Ending(g) => g
    case _ => []
  }

  ghost predicate LockOk(s: State) {
    && (forall d :: 0 <= d < |s.ds| && HoldsLock(s.ds[d].pc) ==> s.lock == ByDecider(d))
    && (s.lock.ByDecider? ==> s.lock.d < |s.ds| && HoldsLock(s.ds[s.lock.d].pc))
    && (forall c :: 0 <= c < |s.ws| && (s.ws[c].pc == Locked || s.ws[c].pc == Linked) ==> s.lock == ByWaiter(c))
    && (s.lock.ByWaiter? ==> s.lock.c < |s.ws| && (s.ws[s.lock.c].pc == Locked || s.ws[s.lock.c].pc == Linked))
  }

  ghost predicate ListOk(s: State) {
    && NoDup(s.list)
    && (forall c :: c in s.list ==> c < |s.ws| && InWait(s.ws[c]) && s.ws[c].waiting && s.ws[c].busy == No)
  }

  predicate IsStoring(pc: DeciderPc, c: nat) {
    pc.Storing? && pc.todo != [] && pc.todo[0] == c
  }

  ghost predicate PreNode(s: State, d: nat, c: nat)
    requires d < |s.ds|
  {
    && c < |s.ws| && InWait(s.ws[c]) && s.ws[c].waiting && c !in s.list
    && s.ws[c].busy == (if IsStoring(s.ds[d].pc, c) then By(d) else No)
  }

  ghost predicate PreOk(s: State) {
    forall d: nat :: d < |s.ds| ==> NoDup(Pre(s.ds[d].pc)) && forall c: nat :: c in Pre(s.ds[d].pc) ==> PreNode(s, d, c)
  }

  ghost predicate PostNode(s: State, d: nat, c: nat) {
    c < |s.ws| && InWait(s.ws[c]) && !s.ws[c].waiting && s.ws[c].busy == By(d)
  }

  ghost predicate PostOk(s: State) {
    forall d: nat :: d < |s.ds| ==> NoDup(Post(s.ds[d].pc)) && forall c: nat :: c in Post(s.ds[d].pc) ==> PostNode(s, d, c)
  }

  /** An undecided wait is linked, or in the hands of the decider that holds the lock. */
  ghost predicate UndecidedOk(s: State) {
    forall c :: 0 <= c < |s.ws| && InWait(s.ws[c]) && s.ws[c].waiting ==>
      c in s.list || (s.lock.ByDecider? && s.lock.d < |s.ds| && c in Pre(s.ds[s.lock.d].pc))
  }

  ghost predicate BusyOk(s: State) {
    forall c :: 0 <= c < |s.ws| && s.ws[c].busy.By? ==>
      && s.ws[c].busy.d < |s.ds|
      && (c in Post(s.ds[s.ws[c].busy.d].pc) || IsStoring(s.ds[s.ws[c].busy.d].pc, c))
  }

  predicate PastLock(pc: DeciderPc) {
    pc.Ending? || pc.Idle?
  }

  ghost predicate WaiterOk(s: State, w: Waiter) {
    && (InWait(w) ==> w.decisions == if w.waiting then 0 else 1)
    && (w.pc == Linked ==> w.waiting) && (w.pc == Sync ==> !w.waiting)
    && (!InWait(w) ==> w.busy == No && !w.waiting && w.decisions <= 1)
    && (w.waiting ==> w.verdict == None)
    && (w.verdict.Op? && w.busy == No ==>
          w.verdict.d < |s.ds| && (s.ds[w.verdict.d].op > w.verdict.k || PastLock(s.ds[w.verdict.d].pc)))
    && (w.verdict.Op? && w.busy.By? ==>
          w.busy.d == w.verdict.d && w.busy.d < |s.ds| && s.ds[w.busy.d].op == w.verdict.k)
    && (w.verdict.Op? ==> w.verdict.d < |s.ds| && w.verdict.k <= s.ds[w.verdict.d].op)
  }

  ghost predicate WaitersOk(s: State) {
    forall c :: 0 <= c < |s.ws| ==> WaiterOk(s, s.ws[c])
  }

  /** The target of an outside decider stays parked until the decider is done. */
  ghost predicate CancelOk(s: State) {
    && (forall d :: 0 <= d < |s.ds| && s.ds[d].kind.Cancel? && s.ds[d].pc != Idle ==>
          s.ds[d].kind.t < |s.ws| && s.ws[s.ds[d].kind.t].pc == Loop)
    && (forall d, e :: 0 <= d < |s.ds| && 0 <= e < |s.ds| && d != e && s.ds[d].kind.Cancel? && s.ds[d].kind == s.ds[e].kind ==>
          s.ds[d].pc == Idle || s.ds[e].pc == Idle)
  }

  ghost predicate DeciderOk(x: Decider) {
    && (x.pc.Storing? ==> x.pc.todo != [])
    && (x.kind != Batch && x.pc.Flipped? ==> x.pc.todo == [] && x.pc.granted == [])
    && (x.kind != Batch && (x.pc.Held? || x.pc.Storing?) ==> |x.pc.todo| <= 1 && x.pc.granted == [])
  }

  ghost predicate DecidersOk(s: State) {
    forall d :: 0 <= d < |s.ds| ==> DeciderOk(s.ds[d])
  }

  ghost predicate Inv(s: State) {
    LockOk(s) && ListOk(s) && PreOk(s) && PostOk(s) && UndecidedOk(s) && BusyOk(s) && WaitersOk(s) && CancelOk(s) && DecidersOk(s)
  }

  // ---------------------------------------------------------------- list facts

  lemma {:induction false} Split(l: seq<nat>, k: nat)
    requires NoDup(l) && k <= |l|
    ensures NoDup(l[..k]) && NoDup(l[k..])
    ensures forall c :: c in l <==> c in l[..k] || c in l[k..]
    ensures forall c :: c in l[..k] ==> c !in l[k..]
  {
    assert l == l[..k] + l[k..];
  }

  // ---------------------------------------------------------------- steps that only move a program counter

  /** The decider moves on without gaining, deciding or releasing a node. */
  ghost predicate PcShape(s: State, d: nat, s': State) {
    && d < |s.ds| && |s'.ds| == |s.ds| && s' == SetPc(s, d, s'.ds[d].pc).(lock := s'.lock)
    && var pc, pc' := s.ds[d].pc, s'.ds[d].pc;
    && Pre(pc') == Pre(pc) && Post(pc') == Post(pc) && !pc.Storing? && !pc'.Storing?
    && pc != Idle && (PastLock(pc) ==> PastLock(pc')) && DeciderOk(s'.ds[d])
    && (!HoldsLock(pc) && HoldsLock(pc') ==> s.lock == Free)
    && s'.lock == (if HoldsLock(pc') then ByDecider(d) else if HoldsLock(pc) then Free else s.lock)
  }

  lemma {:induction false} PcRefs(s: State, d: nat, s': State)
    requires PreOk(s) && PostOk(s) && BusyOk(s) && UndecidedOk(s) && LockOk(s) && PcShape(s, d, s')
    ensures PreOk(s') && PostOk(s') && BusyOk(s') && UndecidedOk(s')
  {
    forall e: nat | e < |s.ds|
      ensures Pre(s'.ds[e].pc) == Pre(s.ds[e].pc) && Post(s'.ds[e].pc) == Post(s.ds[e].pc)
    {
    }
  }

  lemma {:induction false} PcLock(s: State, d: nat, s': State)
    requires LockOk(s) && WaitersOk(s) && PcShape(s, d, s')
    ensures LockOk(s') && WaitersOk(s')
  {
  }

  lemma {:induction false} PcRest(s: State, d: nat, s': State)
    requires ListOk(s) && CancelOk(s) && DecidersOk(s) && PcShape(s, d, s')
    ensures ListOk(s') && CancelOk(s') && DecidersOk(s')
  {
  }

  lemma {:induction false} PcStep(s: State, d: nat, s': State)
    requires Inv(s) && PcShape(s, d, s')
    ensures Inv(s')
  {
    PcRefs(s, d, s');
    PcLock(s, d, s');
    PcRest(s, d, s');
  }

  lemma {:induction false} PcSteps(s: State, d: nat, s': State)
    requires Inv(s)
    requires DeciderLock(s, d, s') || DeciderReturn(s, d, s') || UnlockDone(s, d, s') || WakeLocked(s, d, s') || UnlockGranted(s, d, s') || WakeUnlocked(s, d, s')
    ensures Inv(s')
  {
    PcShapes(s, d, s');
    PcStep(s, d, s');
  }

  lemma {:induction false} PcShapes(s: State, d: nat, s': State)
    requires LockOk(s) && DecidersOk(s)
    requires DeciderLock(s, d, s') || DeciderReturn(s, d, s') || UnlockDone(s, d, s') || WakeLocked(s, d, s') || UnlockGranted(s, d, s') || WakeUnlocked(s, d, s')
    ensures PcShape(s, d, s')
  {
  }

  lemma {:induction false} DeciderStartOk(s: State, d: nat, kind: Kind, s': State)
    requires Inv(s) && DeciderStart(s, d, kind, s')
    ensures Inv(s')
  {
    DeciderStartRefs(s, d, kind, s');
    DeciderStartWaiters(s, d, kind, s');
  }

  lemma {:induction false} DeciderStartRefs(s: State, d: nat, kind: Kind, s': State)
    requires PreOk(s) && PostOk(s) && BusyOk(s) && UndecidedOk(s) && LockOk(s) && ListOk(s) && DecidersOk(s) && DeciderStart(s, d, kind, s')
    ensures PreOk(s') && PostOk(s') && BusyOk(s') && UndecidedOk(s') && LockOk(s') && ListOk(s') && DecidersOk(s')
  {
    forall e: nat | e < |s.ds|
      ensures Pre(s'.ds[e].pc) == Pre(s.ds[e].pc) && Post(s'.ds[e].pc) == Post(s.ds[e].pc)
    {
    }
  }

  lemma {:induction false} DeciderStartWaiters(s: State, d: nat, kind: Kind, s': State)
    requires WaitersOk(s) && CancelOk(s) && PostOk(s) && BusyOk(s) && DeciderStart(s, d, kind, s')
    ensures WaitersOk(s') && CancelOk(s')
  {
  }

  // ---------------------------------------------------------------- steps of a waiter

  /** The waiter moves on with its node untouched; it leaves the wait only with the window closed. */
  ghost predicate MoveShape(s: State, c: nat, s': State) {
    && c < |s.ws| && |s'.ws| == |s.ws| && s' == s.(lock := s'.lock, ws := s.ws[c := s.ws[c].(pc := s'.ws[c].pc)])
    && var pc, pc' := s.ws[c].pc, s'.ws[c].pc;
    && (InWait(s'.ws[c]) == InWait(s.ws[c]) || (!InWait(s'.ws[c]) && !s.ws[c].waiting && s.ws[c].busy == No))
    && pc' != Linked && (pc' == Sync ==> !s.ws[c].waiting)
    && (pc == Loop ==> Runnable(s, c))
    && (if pc' == Locked then s.lock == Free && s'.lock == ByWaiter(c)
        else if pc == Locked || pc == Linked then s'.lock == Free else s'.lock == s.lock)
  }

  lemma {:induction false} MoveShapes(s: State, c: nat, s': State)
    requires WaitersOk(s)
    requires WaiterLock(s, c, s') || WaiterLeave(s, c, s') || WaiterUnlock(s, c, s') || WaiterSee(s, c, s') || WaiterReturn(s, c, s')
    ensures MoveShape(s, c, s')
  {
    assert WaiterOk(s, s.ws[c]);
  }

  lemma {:induction false} MoveRefs(s: State, c: nat, s': State)
    requires ListOk(s) && PreOk(s) && PostOk(s) && BusyOk(s) && MoveShape(s, c, s')
    ensures ListOk(s') && PreOk(s') && PostOk(s') && BusyOk(s')
  {
    forall d: nat, n: nat | d < |s.ds| && n in Pre(s.ds[d].pc)
      ensures PreNode(s', d, n)
    {
      assert PreNode(s, d, n);
    }
    forall d: nat, n: nat | d < |s.ds| && n in Post(s.ds[d].pc)
      ensures PostNode(s', d, n)
    {
      assert PostNode(s, d, n);
    }
  }

  lemma {:induction false} MoveRest(s: State, c: nat, s': State)
    requires LockOk(s) && UndecidedOk(s) && WaitersOk(s) && CancelOk(s) && MoveShape(s, c, s')
    ensures LockOk(s') && UndecidedOk(s') && WaitersOk(s') && CancelOk(s')
  {
    assert WaiterOk(s, s.ws[c]);
    assert s.lock.ByDecider? ==> s'.lock == s.lock;
  }

  lemma {:induction false} MoveStep(s: State, c: nat, s': State)
    requires Inv(s)
    requires WaiterLock(s, c, s') || WaiterLeave(s, c, s') || WaiterUnlock(s, c, s') || WaiterSee(s, c, s') || WaiterReturn(s, c, s')
    ensures Inv(s')
  {
    MoveShapes(s, c, s');
    MoveRefs(s, c, s');
    MoveRest(s, c, s');
  }

  lemma {:induction false} ParkWaiters(s: State, c: nat, s': State)
    requires Inv(s) && WaiterPark(s, c, s')
    ensures UndecidedOk(s') && BusyOk(s') && WaitersOk(s') && CancelOk(s')
  {
  }

  lemma {:induction false} ParkDeciders(s: State, c: nat, s': State)
    requires Inv(s) && WaiterPark(s, c, s')
    ensures LockOk(s') && ListOk(s') && PreOk(s') && PostOk(s') && DecidersOk(s')
  {
  }

  lemma {:induction false} ParkStep(s: State, c: nat, s': State)
    requires Inv(s) && WaiterPark(s, c, s')
    ensures Inv(s')
  {
    ParkWaiters(s, c, s');
    ParkDeciders(s, c, s');
  }

  // ---------------------------------------------------------------- steps of a decider on a node

  /** The lock holder is the only decider with undecided nodes in hand. */
  lemma {:induction false} OnlyHolder(s: State, d: nat)
    requires LockOk(s) && d < |s.ds| && HoldsLock(s.ds[d].pc)
    ensures forall e: nat :: e < |s.ds| && e != d ==> Pre(s.ds[e].pc) == []
  {
  }

  lemma {:induction false} TakeRefs(s: State, d: nat, k: nat, s': State)
    requires LockOk(s) && ListOk(s) && PreOk(s) && PostOk(s) && UndecidedOk(s) && BusyOk(s) && CancelOk(s) && DeciderTake(s, d, k, s')
    ensures ListOk(s') && PreOk(s') && UndecidedOk(s')
  {
    OnlyHolder(s, d);
    match s.ds[d].kind {
      case Single => Split(s.list, 1);
      case Batch => Split(s.list, k);
      case Cancel(t) => RemoveFacts(s.list, t); assert t in s.list;
    }
  }

  lemma {:induction false} TakeOk(s: State, d: nat, k: nat, s': State)
    requires Inv(s) && DeciderTake(s, d, k, s')
    ensures Inv(s')
  {
    TakeRefs(s, d, k, s');
    TakeRest(s, d, k, s');
  }

  ghost predicate TakeShape(s: State, d: nat, s': State) {
    && d < |s.ds| && |s'.ds| == |s.ds| && s.ds[d].pc.Held? && s'.ds[d].pc.Held?
    && s'.ds[d].pc.granted == s.ds[d].pc.granted && (s.ds[d].kind != Batch ==> |s'.ds[d].pc.todo| <= 1)
    && s' == SetPc(s, d, s'.ds[d].pc).(list := s'.list)
  }

  lemma {:induction false} TakeRest(s: State, d: nat, k: nat, s': State)
    requires LockOk(s) && PostOk(s) && BusyOk(s) && WaitersOk(s) && CancelOk(s) && DecidersOk(s) && DeciderTake(s, d, k, s')
    ensures LockOk(s') && PostOk(s') && BusyOk(s') && WaitersOk(s') && CancelOk(s') && DecidersOk(s')
  {
    assert TakeShape(s, d, s');
    TakePost(s, d, s');
    TakeWaiters(s, d, s');
  }

  lemma {:induction false} TakePost(s: State, d: nat, s': State)
    requires LockOk(s) && PostOk(s) && BusyOk(s) && TakeShape(s, d, s')
    ensures LockOk(s') && PostOk(s') && BusyOk(s')
  {
    assert Post(s'.ds[d].pc) == Post(s.ds[d].pc);
  }

  lemma {:induction false} TakeWaiters(s: State, d: nat, s': State)
    requires WaitersOk(s) && CancelOk(s) && DecidersOk(s) && TakeShape(s, d, s')
    ensures WaitersOk(s') && CancelOk(s') && DecidersOk(s')
  {
  }

  lemma {:induction false} RaiseOk(s: State, d: nat, s': State)
    requires Inv(s) && RaiseBusy(s, d, s')
    ensures Inv(s')
  {
    assert s.ds[d].pc.todo[0] in Pre(s.ds[d].pc);
    OnlyHolder(s, d);
    RaiseRefs(s, d, s');
    RaiseRest(s, d, s');
  }

  lemma {:induction false} RaiseRefs(s: State, d: nat, s': State)
    requires LockOk(s) && ListOk(s) && PreOk(s) && PostOk(s) && UndecidedOk(s) && RaiseBusy(s, d, s')
    ensures ListOk(s') && PreOk(s') && PostOk(s') && UndecidedOk(s')
  {
    var n := s.ds[d].pc.todo[0];
    OnlyHolder(s, d);
    assert n in Pre(s.ds[d].pc) && PreNode(s, d, n);
    assert Post(s'.ds[d].pc) == Post(s.ds[d].pc) && Pre(s'.ds[d].pc) == Pre(s.ds[d].pc);
    forall e: nat, m: nat | e < |s.ds| && m in Post(s.ds[e].pc)
      ensures PostNode(s', e, m)
    {
      assert PostNode(s, e, m);
    }
  }

  lemma {:induction false} RaiseRest(s: State, d: nat, s': State)
    requires LockOk(s) && PreOk(s) && BusyOk(s) && WaitersOk(s) && CancelOk(s) && DecidersOk(s) && RaiseBusy(s, d, s')
    ensures LockOk(s') && BusyOk(s') && WaitersOk(s') && CancelOk(s') && DecidersOk(s')
  {
    var n := s.ds[d].pc.todo[0];
    assert n in Pre(s.ds[d].pc) && PreNode(s, d, n);
    assert WaiterOk(s, s.ws[n]);
    assert Post(s'.ds[d].pc) == Post(s.ds[d].pc);
  }

  lemma {:induction false} FlipOk(s: State, d: nat, s': State)
    requires Inv(s) && FlipStatus(s, d, s')
    ensures Inv(s')
  {
    FlipRefs(s, d, s');
    FlipPost(s, d, s');
    FlipRest(s, d, s');
  }

  lemma {:induction false} FlipRefs(s: State, d: nat, s': State)
    requires LockOk(s) && ListOk(s) && PreOk(s) && UndecidedOk(s) && FlipStatus(s, d, s')
    ensures ListOk(s') && PreOk(s') && UndecidedOk(s')
  {
    var todo := s.ds[d].pc.todo;
    OnlyHolder(s, d);
    Split(todo, 1);
    assert todo[..1] == [todo[0]];
    assert todo[0] in Pre(s.ds[d].pc) && PreNode(s, d, todo[0]);
    forall m: nat | m in Pre(s'.ds[d].pc)
      ensures PreNode(s', d, m)
    {
      assert m in Pre(s.ds[d].pc) && PreNode(s, d, m);
    }
  }

  lemma {:induction false} FlipPost(s: State, d: nat, s': State)
    requires PreOk(s) && PostOk(s) && BusyOk(s) && FlipStatus(s, d, s')
    ensures PostOk(s') && BusyOk(s')
  {
    var n := s.ds[d].pc.todo[0];
    assert n in Pre(s.ds[d].pc) && PreNode(s, d, n);
    assert Post(s'.ds[d].pc) == [n] + Post(s.ds[d].pc);
    assert n !in Post(s.ds[d].pc);
    forall e: nat, m: nat | e < |s.ds| && m in Post(s'.ds[e].pc)
      ensures PostNode(s', e, m)
    {
      assert (m == n && e == d) || (m in Post(s.ds[e].pc) && PostNode(s, e, m));
    }
  }

  lemma {:induction false} FlipRest(s: State, d: nat, s': State)
    requires LockOk(s) && PreOk(s) && WaitersOk(s) && CancelOk(s) && DecidersOk(s) && FlipStatus(s, d, s')
    ensures LockOk(s') && WaitersOk(s') && CancelOk(s') && DecidersOk(s')
  {
    var n := s.ds[d].pc.todo[0];
    assert n in Pre(s.ds[d].pc) && PreNode(s, d, n);
    assert WaiterOk(s, s.ws[n]);
  }

  lemma {:induction false} LowerOk(s: State, d: nat, s': State)
    requires Inv(s) && LowerBusy(s, d, s')
    ensures Inv(s')
  {
    LowerRefs(s, d, s');
    LowerRest(s, d, s');
  }

  lemma {:induction false} LowerRefs(s: State, d: nat, s': State)
    requires LockOk(s) && ListOk(s) && PreOk(s) && PostOk(s) && UndecidedOk(s) && BusyOk(s) && LowerBusy(s, d, s')
    ensures ListOk(s') && PreOk(s') && PostOk(s') && UndecidedOk(s') && BusyOk(s')
  {
    var g := s.ds[d].pc.granted;
    Split(g, 1);
    assert g[..1] == [g[0]];
    assert g[0] in Post(s.ds[d].pc) && PostNode(s, d, g[0]);
    forall e: nat, m: nat | e < |s.ds| && m in Post(s'.ds[e].pc)
      ensures PostNode(s', e, m)
    {
      assert m in Post(s.ds[e].pc) && PostNode(s, e, m);
    }
    forall e: nat, m: nat | e < |s.ds| && m in Pre(s'.ds[e].pc)
      ensures PreNode(s', e, m)
    {
      assert m in Pre(s.ds[e].pc) && PreNode(s, e, m);
    }
  }

  lemma {:induction false} LowerRest(s: State, d: nat, s': State)
    requires LockOk(s) && PostOk(s) && WaitersOk(s) && CancelOk(s) && DecidersOk(s) && LowerBusy(s, d, s')
    ensures LockOk(s') && WaitersOk(s') && CancelOk(s') && DecidersOk(s')
  {
    var n := s.ds[d].pc.granted[0];
    assert n in Post(s.ds[d].pc) && PostNode(s, d, n);
    assert WaiterOk(s, s.ws[n]);
  }

  // ---------------------------------------------------------------- every run

  lemma {:induction false} DeciderNextInv(s: State, d: nat, kind: Kind, k: nat, s': State)
    requires Inv(s) && DeciderNext(s, d, kind, k, s')
    ensures Inv(s')
  {
    if DeciderStart(s, d, kind, s') {
      DeciderStartOk(s, d, kind, s');
    } else if DeciderTake(s, d, k, s') {
      TakeOk(s, d, k, s');
    } else if RaiseBusy(s, d, s') {
      RaiseOk(s, d, s');
    } else if FlipStatus(s, d, s') {
      FlipOk(s, d, s');
    } else if LowerBusy(s, d, s') {
      LowerOk(s, d, s');
    } else {
      PcSteps(s, d, s');
    }
  }

  lemma {:induction false} NextInv(s: State, s': State)
    requires Inv(s) && Next(s, s')
    ensures Inv(s')
  {
    if c: nat :| WaiterNext(s, c, s') {
      if WaiterPark(s, c, s') {
        ParkStep(s, c, s');
      } else {
        MoveStep(s, c, s');
      }
    } else {
      var d: nat, kind: Kind, k: nat :| DeciderNext(s, d, kind, k, s');
      DeciderNextInv(s, d, kind, k, s');
    }
  }

  lemma {:induction false} InitInv(s: State)
    requires Initial(s)
    ensures Inv(s)
  {
  }

  lemma {:induction false} StepAt(t: seq<State>, i: nat)
    requires Run(t) && i + 1 < |t|
    ensures Next(t[i], t[i + 1])
  {
  }

  lemma {:induction false} RunInv(t: seq<State>, i: nat)
    requires Run(t) && i < |t|
    ensures Inv(t[i])
  {
    if i == 0 {
      InitInv(t[0]);
    } else {
      RunInv(t, i - 1);
      StepAt(t, i - 1);
      NextInv(t[i - 1], t[i]);
    }
  }

  // ---------------------------------------------------------------- theorems

  /**
   A wait is decided at most once; a returned wait exactly once, and an undecided one never.
   Its node is linked exactly while it is undecided, but for a node in the hands of the lock holder.
   */
  lemma {:induction false} DecidedOnce(t: seq<State>, i: nat, c: nat)
    requires Run(t) && i < |t| && c < |t[i].ws|
    ensures var w := t[i].ws[c];
      && w.decisions <= 1
      && (InWait(w) ==> (w.decisions == 0 <==> w.waiting))
      && (c in t[i].list ==> InWait(w) && w.waiting)
      && (InWait(w) && w.waiting && !t[i].lock.ByDecider? ==> c in t[i].list)
  {
    RunInv(t, i);
    assert WaiterOk(t[i], t[i].ws[c]);
  }

  /** A wait's return is preceded by its one decision. */
  lemma {:induction false} ReturnsDecided(t: seq<State>, i: nat, c: nat)
    requires Run(t) && i + 1 < |t| && c < |t[i].ws|
    requires WaiterReturn(t[i], c, t[i + 1])
    ensures t[i + 1].ws[c].decisions == 1 && c !in t[i + 1].list
  {
    RunInv(t, i);
    RunInv(t, i + 1);
    assert WaiterOk(t[i], t[i].ws[c]);
  }

  /**
   Once the blocked call has returned, no decider has the node or the coroutine in hand, and the
   decider of that wait, if still inside the same operation, has released the structure's lock for good.
   */
  lemma {:induction false} NeverTouchedAfterReturn(t: seq<State>, i: nat, c: nat, d: nat)
    requires Run(t) && i < |t| && c < |t[i].ws| && d < |t[i].ds| && t[i].ws[c].pc == Out
    ensures c !in Pre(t[i].ds[d].pc) && c !in Post(t[i].ds[d].pc)
    ensures t[i].ws[c].verdict == Op(d, t[i].ds[d].op) ==> PastLock(t[i].ds[d].pc)
    ensures t[i].ds[d].kind == Cancel(c) ==> t[i].ds[d].pc == Idle
  {
    RunInv(t, i);
    assert WaiterOk(t[i], t[i].ws[c]);
    assert forall n: nat :: n in Pre(t[i].ds[d].pc) ==> PreNode(t[i], d, n);
    assert forall n: nat :: n in Post(t[i].ds[d].pc) ==> PostNode(t[i], d, n);
  }
}
