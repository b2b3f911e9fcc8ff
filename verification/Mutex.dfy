/**
 The mutex and the condition variable. `Mutex` holds the critical sections of the
 mutex's ticket lock; the machine below runs any number of coroutines over one mutex and
 any number of conditions, with cancellation and deadlines deciding any parked wait.
 */
module Mutexes {
  import opened Lists

  datatype Owner = Nobody | Held(c: nat)

  datatype Mx = Mx(owner: Owner, queue: seq<nat>)

  datatype Status = Ok | Busy | Perm | Canceled | TimedOut

  datatype Fate = Pending | Decided(st: Status)

  ghost predicate Good(m: Mx) {
    (m.owner == Nobody ==> m.queue == []) && (m.owner.Held? ==> m.owner.c !in m.queue) && NoDup(m.queue)
  }

  predicate IsFree(m: Mx) {
    m.owner == Nobody
  }

  function Taken(m: Mx, c: nat): Mx {
    Mx(Held(c), m.queue)
  }

  function Joined(m: Mx, c: nat): Mx {
    Mx(m.owner, m.queue + [c])
  }

  function Left(m: Mx, c: nat): Mx {
    Mx(m.owner, Remove(m.queue, c))
  }

  /** A released mutex goes to the longest waiting coroutine, if any. */
  function Released(m: Mx): (r: Mx) {
    if m.queue == [] then Mx(Nobody, []) else Mx(Held(m.queue[0]), m.queue[1..])
  }

  class Mutex {
    var owner: Owner
    var waiters: seq<nat>

    ghost function State(): Mx
      reads this
    {
      Mx(owner, waiters)
    }

    constructor ()
      ensures State() == Mx(Nobody, []) && Good(State())
    {
      owner, waiters := Nobody, [];
    }

    method TryLock(cr: nat) returns (st: Status)
      requires Good(State()) && cr !in waiters
      modifies this
      ensures Good(State())
      ensures st == if IsFree(old(State())) then Ok else Busy
      ensures State() == if st == Ok then Taken(old(State()), cr) else old(State())
    {
      if owner == Nobody {
        owner := Held(cr);
        return Ok;
      }
      return Busy;
    }

    /** Take a free mutex, refuse the owner, or park. */
    method Lock(cr: nat) returns (st: Status, parked: bool)
      requires Good(State()) && cr !in waiters
      modifies this
      ensures Good(State())
      ensures parked <==> !IsFree(old(State())) && old(owner) != Held(cr)
      ensures !parked ==> st == (if IsFree(old(State())) then Ok else Perm) && State() == Taken(old(State()), cr)
      ensures parked ==> State() == Joined(old(State()), cr)
    {
      if owner == Nobody {
        owner := Held(cr);
        return Ok, false;
      }
      if owner == Held(cr) {
        return Perm, false;
      }
      waiters := waiters + [cr];
      return Ok, true;
    }

    method Unlock(cr: nat) returns (st: Status, granted: Owner)
      requires Good(State())
      modifies this
      ensures Good(State())
      ensures st == if old(owner) == Held(cr) then Ok else Perm
      ensures State() == if st == Ok then Released(old(State())) else old(State())
      ensures granted == if st == Ok then owner else Nobody
    {
      if owner != Held(cr) {
        return Perm, Nobody;
      }
      if waiters != [] {
        granted := Held(waiters[0]);
        owner, waiters := granted, waiters[1..];
      } else {
        granted := Nobody;
        owner := Nobody;
      }
      return Ok, granted;
    }

    /** A cancel or deadline unlinks a parked coroutine and hands nothing over. */
    method Withdraw(cr: nat)
      requires Good(State())
      modifies this
      ensures Good(State())
      ensures State() == Left(old(State()), cr)
    {
      RemoveFacts(waiters, cr);
      var i := 0;
      while i < |waiters| && waiters[i] != cr
        invariant i <= |waiters| && forall j :: 0 <= j < i ==> waiters[j] != cr
      {
        i := i + 1;
      }
      RemoveAt(waiters, cr, i);
      if i < |waiters| {
        waiters := waiters[..i] + waiters[i + 1..];
      }
    }
  }

  // ---------------------------------------------------------------- the machine

  datatype Pc =
    | Idle(holds: bool, last: Status)     // in no call; what the calls told it, and the last result
    | LockWait(fate: Fate)
    | CondHeld(k: nat, fate: Fate)        // cond_wait: parked on condition k, mutex not yet released
    | CondWait(k: nat, fate: Fate)
    | Relock(st: Status)                  // the condition wait is over; s_mutex_lock_raw is about to lock
    | RelockWait(st: Status, fate: Fate)

  /** `ticket[c]` numbers the latest park of c. */
  datatype State = State(mx: Mx, conds: seq<seq<nat>>, pcs: seq<Pc>, ticket: seq<nat>, next: nat)

  function SetPc(s: State, c: nat, pc: Pc): State
    requires c < |s.pcs|
  {
    s.(pcs := s.pcs[c := pc])
  }

  /** The coroutine c parks with a new ticket. */
  function Parked(s: State, c: nat, pc: Pc): State
    requires c < |s.pcs| && |s.ticket| == |s.pcs|
  {
    SetPc(s, c, pc).(ticket := s.ticket[c := s.next], next := s.next + 1)
  }

  predicate Waiting(pc: Pc) {
    !pc.Idle? && !pc.Relock? && pc.fate == Pending
  }

  function Decide(pc: Pc, st: Status): Pc
    requires Waiting(pc)
  {
    pc.(fate := Decided(st))
  }

  /** Mutex unlock, with the status of the coroutine it is handed to. */
  function Unlocked(s: State): State {
    var s1 := s.(mx := Released(s.mx));
    if s.mx.queue != [] && s.mx.queue[0] < |s.pcs| && Waiting(s.pcs[s.mx.queue[0]])
    then SetPc(s1, s.mx.queue[0], Decide(s.pcs[s.mx.queue[0]], Ok)) else s1
  }

  ghost predicate TryLockStep(s: State, c: nat, s': State) {
    && c < |s.pcs| && s.pcs[c].Idle?
    && s' == if IsFree(s.mx) then SetPc(s.(mx := Taken(s.mx, c)), c, Idle(true, Ok))
             else SetPc(s, c, Idle(s.pcs[c].holds, Busy))
  }

  /** s_block_begin refuses a lock or cond_wait of a coroutine that is canceled or out of time. */
  ghost predicate RefuseStep(s: State, c: nat, st: Status, s': State) {
    && c < |s.pcs| && s.pcs[c].Idle? && st in {Canceled, TimedOut}
    && s' == SetPc(s, c, Idle(s.pcs[c].holds, st))
  }

  ghost predicate LockStep(s: State, c: nat, s': State) {
    && c < |s.pcs| == |s.ticket| && s.pcs[c].Idle?
    && s' == if IsFree(s.mx) then SetPc(s.(mx := Taken(s.mx, c)), c, Idle(true, Ok))
             else if s.mx.owner == Held(c) then SetPc(s, c, Idle(s.pcs[c].holds, Perm))
             else Parked(s.(mx := Joined(s.mx, c)), c, LockWait(Pending))
  }

  ghost predicate LockReturn(s: State, c: nat, s': State) {
    && c < |s.pcs| && s.pcs[c].LockWait? && s.pcs[c].fate.Decided?
    && s' == SetPc(s, c, Idle(s.pcs[c].fate.st == Ok, s.pcs[c].fate.st))
  }

  ghost predicate UnlockStep(s: State, c: nat, s': State) {
    && c < |s.pcs| && s.pcs[c].Idle?
    && s' == if s.mx.owner == Held(c) then Unlocked(SetPc(s, c, Idle(false, Ok)))
             else SetPc(s, c, Idle(s.pcs[c].holds, Perm))
  }

  ghost predicate CondEnter(s: State, c: nat, k: nat, s': State) {
    && c < |s.pcs| == |s.ticket| && k < |s.conds| && s.pcs[c].Idle?
    && s' == if s.mx.owner == Held(c) then Parked(s.(conds := s.conds[k := s.conds[k] + [c]]), c, CondHeld(k, Pending))
             else SetPc(s, c, Idle(s.pcs[c].holds, Perm))
  }

  ghost predicate CondRelease(s: State, c: nat, s': State) {
    && c < |s.pcs| && s.pcs[c].CondHeld?
    && s' == Unlocked(SetPc(s, c, CondWait(s.pcs[c].k, s.pcs[c].fate)))
  }

  ghost predicate CondDecided(s: State, c: nat, s': State) {
    && c < |s.pcs| && s.pcs[c].CondWait? && s.pcs[c].fate.Decided?
    && s' == SetPc(s, c, Relock(s.pcs[c].fate.st))
  }

  ghost predicate RelockStep(s: State, c: nat, s': State) {
    && c < |s.pcs| == |s.ticket| && s.pcs[c].Relock?
    && s' == if IsFree(s.mx) then SetPc(s.(mx := Taken(s.mx, c)), c, Idle(true, s.pcs[c].st))
             else Parked(s.(mx := Joined(s.mx, c)), c, RelockWait(s.pcs[c].st, Pending))
  }

  /** Handed the mutex, cond_wait returns; canceled or timed out meanwhile, it tries again. */
  ghost predicate RelockWake(s: State, c: nat, s': State) {
    && c < |s.pcs| && s.pcs[c].RelockWait? && s.pcs[c].fate.Decided?
    && s' == SetPc(s, c, if s.pcs[c].fate.st == Ok then Idle(true, s.pcs[c].st) else Relock(s.pcs[c].st))
  }

  /** s_waiter_wake: a cancel or deadline decides a parked wait, wherever it is parked. */
  ghost predicate WithdrawStep(s: State, c: nat, st: Status, s': State) {
    && c < |s.pcs| && Waiting(s.pcs[c]) && st in {Canceled, TimedOut}
    && var s1 := SetPc(s, c, Decide(s.pcs[c], st));
    && match s.pcs[c]
       case CondHeld(k, _) => k < |s.conds| && s' == s1.(conds := s.conds[k := Remove(s.conds[k], c)])
       case CondWait(k, _) => k < |s.conds| && s' == s1.(conds := s.conds[k := Remove(s.conds[k], c)])
       case LockWait(_) => s' == s1.(mx := Left(s.mx, c))
       case RelockWait(_, _) => s' == s1.(mx := Left(s.mx, c))
       case Idle(_, _) => false
       case Relock(_) => false
  }

  ghost predicate SignalStep(s: State, k: nat, s': State) {
    && k < |s.conds|
    && if s.conds[k] == [] then s' == s
       else
         var c := s.conds[k][0];
         && c < |s.pcs| && Waiting(s.pcs[c])
         && s' == SetPc(s, c, Decide(s.pcs[c], Ok)).(conds := s.conds[k := s.conds[k][1..]])
  }

  ghost predicate BroadcastStep(s: State, k: nat, s': State) {
    && k < |s.conds|
    && s' == s.(conds := s.conds[k := []], pcs := s'.pcs) && |s'.pcs| == |s.pcs|
    && forall c: nat :: c < |s.pcs| ==>
         s'.pcs[c] == if c in s.conds[k] && Waiting(s.pcs[c]) then Decide(s.pcs[c], Ok) else s.pcs[c]
  }

  datatype Step =
    | DoTryLock(c: nat) | DoRefuse(c: nat, st: Status) | DoLock(c: nat) | DoLockReturn(c: nat) | DoUnlock(c: nat)
    | DoCondEnter(c: nat, k: nat) | DoCondRelease(c: nat) | DoCondDecided(c: nat)
    | DoRelock(c: nat) | DoRelockWake(c: nat) | DoWithdraw(c: nat, st: Status) | DoSignal(k: nat) | DoBroadcast(k: nat)

  ghost predicate Next(s: State, a: Step, s': State) {
    match a
    case DoTryLock(c) => TryLockStep(s, c, s')
    case DoRefuse(c, st) => RefuseStep(s, c, st, s')
    case DoLock(c) => LockStep(s, c, s')
    case DoLockReturn(c) => LockReturn(s, c, s')
    case DoUnlock(c) => UnlockStep(s, c, s')
    case DoCondEnter(c, k) => CondEnter(s, c, k, s')
    case DoCondRelease(c) => CondRelease(s, c, s')
    case DoCondDecided(c) => CondDecided(s, c, s')
    case DoRelock(c) => RelockStep(s, c, s')
    case DoRelockWake(c) => RelockWake(s, c, s')
    case DoWithdraw(c, st) => WithdrawStep(s, c, st, s')
    case DoSignal(k) => SignalStep(s, k, s')
    case DoBroadcast(k) => BroadcastStep(s, k, s')
  }

  ghost predicate Init(s: State) {
    && s.mx == Mx(Nobody, []) && |s.ticket| == |s.pcs|
    && (forall k: nat :: k < |s.conds| ==> s.conds[k] == [])
    && (forall c: nat :: c < |s.pcs| ==> s.pcs[c] == Idle(false, Ok))
  }

  ghost predicate Run(t: seq<State>, a: seq<Step>) {
    && |t| == |a| + 1 && Init(t[0])
    && forall i: nat :: i < |a| ==> Next(t[i], a[i], t[i + 1])
  }

  // ---------------------------------------------------------------- the invariant

  /** The coroutine owns the mutex, whether or not it has noticed yet. */
  predicate Owns(pc: Pc) {
    match pc
    case Idle(holds, _) => holds
    case LockWait(fate) => fate == Decided(Ok)
    case CondHeld(_, _) => true
    case CondWait(_, _) => false
    case Relock(_) => false
    case RelockWait(_, fate) => fate == Decided(Ok)
  }

  predicate InMutexQueue(pc: Pc) {
    (pc.LockWait? || pc.RelockWait?) && pc.fate == Pending
  }

  predicate InCondQueue(pc: Pc, k: nat) {
    (pc.CondHeld? || pc.CondWait?) && pc.fate == Pending && pc.k == k
  }

  ghost predicate OwnerOk(s: State) {
    && (s.mx.owner == Nobody ==> s.mx.queue == [])
    && (s.mx.owner.Held? ==> s.mx.owner.c < |s.pcs|)
    && forall c: nat :: c < |s.pcs| ==> (Owns(s.pcs[c]) <==> s.mx.owner == Held(c))
  }

  ghost predicate MutexQueueOk(s: State) {
    && NoDup(s.mx.queue) && (forall c :: c in s.mx.queue ==> c < |s.pcs|)
    && forall c: nat :: c < |s.pcs| ==> (InMutexQueue(s.pcs[c]) <==> c in s.mx.queue)
  }

  ghost predicate CondQueueOk(s: State, k: nat, q: seq<nat>) {
    && NoDup(q) && (forall c :: c in q ==> c < |s.pcs|)
    && forall c: nat :: c < |s.pcs| ==> (InCondQueue(s.pcs[c], k) <==> c in q)
  }

  ghost predicate CondsOk(s: State) {
    && (forall k: nat :: k < |s.conds| ==> CondQueueOk(s, k, s.conds[k]))
    && forall c: nat :: c < |s.pcs| && (s.pcs[c].CondHeld? || s.pcs[c].CondWait?) ==> s.pcs[c].k < |s.conds|
  }

  ghost predicate InOrder(q: seq<nat>, ticket: seq<nat>) {
    forall i, j :: 0 <= i < j < |q| && q[i] < |ticket| && q[j] < |ticket| ==> ticket[q[i]] < ticket[q[j]]
  }

  ghost predicate OrderOk(s: State) {
    && |s.ticket| == |s.pcs|
    && (forall c: nat :: c < |s.pcs| && Waiting(s.pcs[c]) ==> s.ticket[c] < s.next)
    && InOrder(s.mx.queue, s.ticket)
    && forall k: nat :: k < |s.conds| ==> InOrder(s.conds[k], s.ticket)
  }

  ghost predicate Inv(s: State) {
    OwnerOk(s) && MutexQueueOk(s) && CondsOk(s) && OrderOk(s)
  }

  // ---------------------------------------------------------------- every step keeps it

  lemma {:induction false} HeadTail(q: seq<nat>)
    requires NoDup(q) && q != []
    ensures forall c :: c in q[1..] <==> c in q && c != q[0]
    ensures NoDup(q[1..])
  {
    assert q == [q[0]] + q[1..];
  }

  lemma {:induction false} RemoveInOrder(q: seq<nat>, c: nat, ticket: seq<nat>)
    requires InOrder(q, ticket)
    ensures InOrder(Remove(q, c), ticket)
  {
    var r := Remove(q, c);
    forall i, j | 0 <= i < j < |r| && r[i] < |ticket| && r[j] < |ticket|
      ensures ticket[r[i]] < ticket[r[j]]
    {
      var i', j' := RemoveKeepsOrder(q, c, i, j);
    }
  }

  /** Handing the mutex on, by unlock or by cond_wait. */
  lemma {:induction false} ReleaseOk(s: State, c: nat, pc: Pc, s': State)
    requires Inv(s) && s.mx.owner == Held(c) && c < |s.pcs|
    requires !Owns(pc) && (forall k: nat :: InCondQueue(pc, k) <==> InCondQueue(s.pcs[c], k))
    requires pc == Idle(false, Ok) || (s.pcs[c].CondHeld? && pc == CondWait(s.pcs[c].k, s.pcs[c].fate))
    requires s' == Unlocked(SetPc(s, c, pc))
    ensures OwnerOk(s') && MutexQueueOk(s')
  {
    var q := s.mx.queue;
    if q != [] {
      HeadTail(q);
      assert q[0] in q && q[0] != c;
      assert s'.pcs[q[0]] == Decide(s.pcs[q[0]], Ok);
    }
  }

  lemma {:induction false} WithdrawMutex(s: State, c: nat, st: Status, s': State)
    requires Inv(s) && WithdrawStep(s, c, st, s')
    ensures MutexQueueOk(s')
  {
    RemoveFacts(s.mx.queue, c);
  }

  lemma {:induction false} WithdrawConds(s: State, c: nat, st: Status, s': State)
    requires Inv(s) && WithdrawStep(s, c, st, s')
    ensures CondsOk(s')
  {
    if s.pcs[c].CondHeld? || s.pcs[c].CondWait? {
      RemoveFacts(s.conds[s.pcs[c].k], c);
    }
  }

  lemma {:induction false} WithdrawOrder(s: State, c: nat, st: Status, s': State)
    requires Inv(s) && WithdrawStep(s, c, st, s')
    ensures OrderOk(s')
  {
    RemoveInOrder(s.mx.queue, c, s.ticket);
    if s.pcs[c].CondHeld? || s.pcs[c].CondWait? {
      RemoveInOrder(s.conds[s.pcs[c].k], c, s.ticket);
    }
  }

  lemma {:induction false} SignalOk(s: State, k: nat, s': State)
    requires Inv(s) && SignalStep(s, k, s')
    ensures Inv(s')
  {
    if s.conds[k] != [] {
      HeadTail(s.conds[k]);
      assert s.conds[k][0] in s.conds[k];
    }
  }

  lemma {:induction false} CallStep(s: State, a: Step, s': State)
    requires Inv(s) && Next(s, a, s') && (a.DoTryLock? || a.DoRefuse?)
    ensures Inv(s')
  {
  }

  lemma {:induction false} ReturnStep(s: State, a: Step, s': State)
    requires Inv(s) && Next(s, a, s') && (a.DoLockReturn? || a.DoCondDecided? || a.DoRelockWake?)
    ensures Inv(s')
  {
  }

  lemma {:induction false} LockPlaces(s: State, c: nat, s': State)
    requires Inv(s) && LockStep(s, c, s')
    ensures OwnerOk(s') && MutexQueueOk(s')
  {
  }

  lemma {:induction false} LockConds(s: State, c: nat, s': State)
    requires Inv(s) && LockStep(s, c, s')
    ensures CondsOk(s')
  {
  }

  lemma {:induction false} RelockPlaces(s: State, c: nat, s': State)
    requires Inv(s) && RelockStep(s, c, s')
    ensures OwnerOk(s') && MutexQueueOk(s') && CondsOk(s')
  {
  }

  lemma {:induction false} LockOrder(s: State, c: nat, s': State)
    requires Inv(s) && LockStep(s, c, s')
    ensures OrderOk(s')
  {
  }

  lemma {:induction false} RelockOrder(s: State, c: nat, s': State)
    requires Inv(s) && RelockStep(s, c, s')
    ensures OrderOk(s')
  {
  }

  lemma {:induction false} CondEnterPlaces(s: State, c: nat, k: nat, s': State)
    requires Inv(s) && CondEnter(s, c, k, s')
    ensures OwnerOk(s') && MutexQueueOk(s') && CondsOk(s')
  {
  }

  lemma {:induction false} CondEnterOrder(s: State, c: nat, k: nat, s': State)
    requires Inv(s) && CondEnter(s, c, k, s')
    ensures OrderOk(s')
  {
    if s.mx.owner == Held(c) {
      forall j: nat | j < |s.conds|
        ensures InOrder(s'.conds[j], s'.ticket)
      {
        assert CondQueueOk(s, j, s.conds[j]) && InOrder(s.conds[j], s.ticket);
      }
    }
  }

  lemma {:induction false} UnlockOk(s: State, c: nat, s': State)
    requires Inv(s) && UnlockStep(s, c, s')
    ensures Inv(s')
  {
    if s.mx.owner == Held(c) {
      ReleaseOk(s, c, Idle(false, Ok), s');
    }
  }

  lemma {:induction false} CondReleaseOk(s: State, c: nat, s': State)
    requires Inv(s) && CondRelease(s, c, s')
    ensures Inv(s')
  {
    ReleaseOk(s, c, CondWait(s.pcs[c].k, s.pcs[c].fate), s');
  }

  lemma {:induction false} BroadcastOk(s: State, k: nat, s': State)
    requires Inv(s) && BroadcastStep(s, k, s')
    ensures Inv(s')
  {
  }

  lemma {:induction false} NextInv(s: State, a: Step, s': State)
    requires Inv(s) && Next(s, a, s')
    ensures Inv(s')
  {
    match a
    case DoTryLock(_) => CallStep(s, a, s');
    case DoRefuse(_, _) => CallStep(s, a, s');
    case DoLockReturn(_) => ReturnStep(s, a, s');
    case DoCondDecided(_) => ReturnStep(s, a, s');
    case DoRelockWake(_) => ReturnStep(s, a, s');
    case DoLock(c) => LockPlaces(s, c, s'); LockConds(s, c, s'); LockOrder(s, c, s');
    case DoRelock(c) => RelockPlaces(s, c, s'); RelockOrder(s, c, s');
    case DoCondEnter(c, k) => CondEnterPlaces(s, c, k, s'); CondEnterOrder(s, c, k, s');
    case DoUnlock(c) => UnlockOk(s, c, s');
    case DoCondRelease(c) => CondReleaseOk(s, c, s');
    case DoWithdraw(c, st) =>
      WithdrawMutex(s, c, st, s');
      WithdrawConds(s, c, st, s');
      WithdrawOrder(s, c, st, s');
    case DoSignal(k) => SignalOk(s, k, s');
    case DoBroadcast(k) => BroadcastOk(s, k, s');
  }

  lemma {:induction false} RunInv(t: seq<State>, a: seq<Step>, i: nat)
    requires Run(t, a) && i < |t|
    ensures Inv(t[i]) && |t[i].pcs| == |t[0].pcs| && |t[i].conds| == |t[0].conds|
  {
    if i > 0 {
      RunInv(t, a, i - 1);
      assert Next(t[i - 1], a[i - 1], t[i - 1 + 1]);
      NextInv(t[i - 1], a[i - 1], t[i]);
    }
  }

  // ---------------------------------------------------------------- theorems

  /**
   In every run the mutex has one owner at most, who alone believes to hold it, and a
   coroutine is queued exactly while its wait is undecided; a free mutex has no waiters,
   whatever was canceled.
   */
  lemma {:induction false} OwnershipInEveryRun(t: seq<State>, a: seq<Step>, i: nat, c: nat, d: nat)
    requires Run(t, a) && i < |t| && c < |t[i].pcs| && d < |t[i].pcs|
    ensures Owns(t[i].pcs[c]) && Owns(t[i].pcs[d]) ==> c == d
    ensures Owns(t[i].pcs[c]) <==> t[i].mx.owner == Held(c)
    ensures t[i].mx.owner == Nobody ==> !InMutexQueue(t[i].pcs[c])
    ensures c in t[i].mx.queue <==> InMutexQueue(t[i].pcs[c])
  {
    RunInv(t, a, i);
  }

  /** A blocking lock that returns OK returns owning; one that fails returns not owning. */
  lemma {:induction false} LockReturnsDecided(t: seq<State>, a: seq<Step>, i: nat, c: nat)
    requires Run(t, a) && i < |a| && c < |t[i].pcs| && t[i].pcs[c].LockWait?
    requires |t[i + 1].pcs| == |t[i].pcs| && t[i + 1].pcs[c].Idle?
    ensures t[i + 1].mx.owner == Held(c) <==> t[i + 1].pcs[c].last == Ok
  {
    RunInv(t, a, i);
    assert Next(t[i], a[i], t[i + 1]);
    Unaffected(t[i], a[i], t[i + 1], c);
  }

  /**
   Calls that return at once. trylock and lock answer OK exactly if nobody owned the mutex, and
   then the caller owns it; trylock answers BUSY otherwise, lock PERM to the owner. unlock answers
   OK exactly to the owner, who then owns it no more, and PERM to others. Without OK nothing changes hands.
   */
  lemma {:induction false} AnsweredAtOnce(t: seq<State>, a: seq<Step>, i: nat, c: nat)
    requires Run(t, a) && i < |a| && a[i] in {DoTryLock(c), DoLock(c), DoUnlock(c)} && c < |t[i].pcs|
    requires |t[i + 1].pcs| == |t[i].pcs| && t[i + 1].pcs[c].Idle?
    ensures var was, now, last := t[i].mx, t[i + 1].mx, t[i + 1].pcs[c].last;
      && (last == Ok <==> was.owner == if a[i] == DoUnlock(c) then Held(c) else Nobody)
      && (last == Ok ==> (now.owner == Held(c) <==> a[i] != DoUnlock(c)))
      && (last != Ok ==> now == was && last == if a[i] == DoTryLock(c) then Busy else Perm)
      && (a[i] == DoLock(c) && last != Ok ==> was.owner == Held(c))
      && Owns(t[i + 1].pcs[c]) == (now.owner == Held(c))
  {
    RunInv(t, a, i);
    RunInv(t, a, i + 1);
    assert Next(t[i], a[i], t[i + 1]);
    AnsweredStep(t[i], a[i], t[i + 1], c);
  }

  lemma {:induction false} AnsweredStep(s: State, a: Step, s': State, c: nat)
    requires Inv(s) && Next(s, a, s') && a in {DoTryLock(c), DoLock(c), DoUnlock(c)} && c < |s.pcs| == |s'.pcs| && s'.pcs[c].Idle?
    ensures var last := s'.pcs[c].last;
      && (last == Ok <==> s.mx.owner == if a == DoUnlock(c) then Held(c) else Nobody)
      && (last == Ok ==> (s'.mx.owner == Held(c) <==> a != DoUnlock(c)))
      && (last != Ok ==> s'.mx == s.mx && last == if a == DoTryLock(c) then Busy else Perm)
      && (a == DoLock(c) && last != Ok ==> s.mx.owner == Held(c))
  {
    if a == DoUnlock(c) && s.mx.queue != [] {
      assert s.mx.queue[0] in s.mx.queue;
    }
  }

  predicate InCond(pc: Pc) {
    pc.CondHeld? || pc.CondWait? || pc.Relock? || pc.RelockWait?
  }

  /** What the condition wait of a cond_wait call has come to so far. */
  function Verdict(pc: Pc): Fate
    requires InCond(pc)
  {
    match pc
    case CondHeld(_, fate) => fate
    case CondWait(_, fate) => fate
    case Relock(st) => Decided(st)
    case RelockWait(st, _) => Decided(st)
  }

  /** Steps that decide the wait of a condition. */
  predicate CondDecider(a: Step) {
    a.DoWithdraw? || a.DoSignal? || a.DoBroadcast?
  }

  /** A cond_wait in progress stays in progress with its verdict, or returns that verdict as the owner. */
  ghost predicate CondGoesOn(pc: Pc, pc': Pc) {
    && InCond(pc) && (InCond(pc') || pc'.Idle?)
    && (InCond(pc') && Verdict(pc) != Pending ==> Verdict(pc') == Verdict(pc))
    && (pc'.Idle? ==> pc'.holds && Verdict(pc) == Decided(pc'.last))
  }

  lemma {:induction false} CondCallDecided(s: State, a: Step, s': State, c: nat)
    requires Inv(s) && Next(s, a, s') && c < |s.pcs| == |s'.pcs| && InCond(s.pcs[c]) && CondDecider(a)
    ensures CondGoesOn(s.pcs[c], s'.pcs[c])
  {
  }

  lemma {:induction false} CondCallMoved(s: State, a: Step, s': State, c: nat)
    requires Inv(s) && Next(s, a, s') && c < |s.pcs| == |s'.pcs| && InCond(s.pcs[c]) && !CondDecider(a)
    ensures CondGoesOn(s.pcs[c], s'.pcs[c])
  {
  }

  lemma {:induction false} CondCallStep(s: State, a: Step, s': State, c: nat)
    requires Inv(s) && Next(s, a, s') && c < |s.pcs| == |s'.pcs| && InCond(s.pcs[c])
    ensures CondGoesOn(s.pcs[c], s'.pcs[c])
  {
    if CondDecider(a) {
      CondCallDecided(s, a, s', c);
    } else {
      CondCallMoved(s, a, s', c);
    }
  }

  /**
   cond_wait called by the owner returns owning the mutex on every path, with the status
   that ended the condition wait, even when cancels and deadlines hit the re-lock.
   */
  lemma {:induction false} CondWaitReturnsOwning(t: seq<State>, a: seq<Step>, i: nat, j: nat, c: nat)
    requires Run(t, a) && i < j < |t| && c < |t[0].pcs|
    requires forall m: nat :: i <= m < j ==> |t[m].pcs| == |t[0].pcs| && InCond(t[m].pcs[c])
    requires |t[j].pcs| == |t[0].pcs| && !InCond(t[j].pcs[c])
    ensures t[j].pcs[c].Idle? && t[j].pcs[c].holds && t[j].mx.owner == Held(c)
    ensures Verdict(t[i].pcs[c]) == Pending || Verdict(t[i].pcs[c]) == Decided(t[j].pcs[c].last)
    decreases j - i
  {
    RunInv(t, a, i);
    RunInv(t, a, i + 1);
    assert Next(t[i], a[i], t[i + 1]);
    CondCallStep(t[i], a[i], t[i + 1], c);
    if i + 1 < j {
      CondWaitReturnsOwning(t, a, i + 1, j, c);
    }
  }

  // ---------------------------------------------------------------- what ended a wait

  /** A wait on condition k ends with OK by a signal or a broadcast of k, and with a failure by that withdrawal. */
  ghost predicate CondEndedBy(a: Step, c: nat, k: nat, st: Status) {
    && (st == Ok <==> a == DoSignal(k) || a == DoBroadcast(k))
    && (st == Canceled <==> a == DoWithdraw(c, Canceled))
    && (st == TimedOut <==> a == DoWithdraw(c, TimedOut))
    && st in {Ok, Canceled, TimedOut}
  }

  lemma {:induction false} CondKeptStep(s: State, a: Step, s': State, c: nat, k: nat)
    requires Inv(s) && Next(s, a, s') && c < |s.pcs| == |s'.pcs| && InCondQueue(s.pcs[c], k) && !CondDecider(a)
    ensures InCondQueue(s'.pcs[c], k)
  {
    if (a.DoUnlock? || a.DoCondRelease?) && s.mx.queue != [] {
      assert s.mx.queue[0] in s.mx.queue;
    }
  }

  lemma {:induction false} CondDecidedStep(s: State, a: Step, s': State, c: nat, k: nat)
    requires Inv(s) && Next(s, a, s') && c < |s.pcs| == |s'.pcs| && InCondQueue(s.pcs[c], k) && CondDecider(a)
    ensures InCond(s'.pcs[c])
    ensures InCondQueue(s'.pcs[c], k) || (Verdict(s'.pcs[c]).Decided? && CondEndedBy(a, c, k, Verdict(s'.pcs[c]).st))
  {
    if a.DoSignal? && s.conds[a.k] != [] {
      assert s.conds[a.k][0] in s.conds[a.k];
    }
  }

  lemma {:induction false} CondEndStep(s: State, a: Step, s': State, c: nat, k: nat)
    requires Inv(s) && Next(s, a, s') && c < |s.pcs| == |s'.pcs| && InCondQueue(s.pcs[c], k)
    ensures InCond(s'.pcs[c])
    ensures InCondQueue(s'.pcs[c], k) || (Verdict(s'.pcs[c]).Decided? && CondEndedBy(a, c, k, Verdict(s'.pcs[c]).st))
  {
    if CondDecider(a) {
      CondDecidedStep(s, a, s', c, k);
    } else {
      CondKeptStep(s, a, s', c, k);
    }
  }

  ghost predicate InCondAt(t: seq<State>, m: nat, c: nat) {
    m < |t| && c < |t[m].pcs| && InCond(t[m].pcs[c])
  }

  ghost predicate PendingAt(t: seq<State>, m: nat, c: nat, k: nat) {
    m < |t| && c < |t[m].pcs| && InCondQueue(t[m].pcs[c], k)
  }

  /** The condition wait is over, with st. */
  ghost predicate OverAt(t: seq<State>, m: nat, c: nat, st: Status) {
    InCondAt(t, m, c) && Verdict(t[m].pcs[c]) == Decided(st)
  }

  lemma {:induction false} CondEndAt(t: seq<State>, a: seq<Step>, m: nat, m': nat, c: nat, k: nat)
    requires Run(t, a) && m' == m + 1 < |t| && PendingAt(t, m, c, k)
    ensures PendingAt(t, m', c, k) || exists st :: OverAt(t, m', c, st) && CondEndedBy(a[m], c, k, st)
  {
    RunInv(t, a, m);
    RunInv(t, a, m');
    assert Next(t[m], a[m], t[m + 1]);
    CondEndStep(t[m], a[m], t[m'], c, k);
    if !PendingAt(t, m', c, k) {
      assert OverAt(t, m', c, Verdict(t[m'].pcs[c]).st);
    }
  }

  lemma {:induction false} OverStays(t: seq<State>, a: seq<Step>, m: nat, m': nat, c: nat, st: Status)
    requires Run(t, a) && m' == m + 1 < |t| && OverAt(t, m, c, st)
    ensures OverAt(t, m', c, st) || (c < |t[m'].pcs| && t[m'].pcs[c] == Idle(true, st))
  {
    RunInv(t, a, m);
    RunInv(t, a, m');
    assert Next(t[m], a[m], t[m + 1]);
    CondCallStep(t[m], a[m], t[m'], c);
  }

  ghost predicate InCondBetween(t: seq<State>, i: nat, j: nat, c: nat) {
    forall m: nat :: i < m < j ==> InCondAt(t, m, c)
  }

  /** Once over, the wait stays so with the same status until the call returns it. */
  lemma {:induction false} OverUntil(t: seq<State>, a: seq<Step>, p: nat, j: nat, c: nat, st: Status)
    requires Run(t, a) && p < j < |t| && OverAt(t, p, c, st) && InCondBetween(t, p, j, c) && !InCondAt(t, j, c)
    ensures forall q: nat :: p <= q < j ==> OverAt(t, q, c, st)
    ensures c < |t[j].pcs| && t[j].pcs[c] == Idle(true, st)
    decreases j - p
  {
    var p' := p + 1;
    OverStays(t, a, p, p', c, st);
    if p' < j {
      assert InCondAt(t, p', c);
      assert InCondBetween(t, p', j, c);
      OverUntil(t, a, p', j, c, st);
    }
  }

  lemma {:induction false} PendingUntil(t: seq<State>, a: seq<Step>, p: nat, j: nat, c: nat, k: nat) returns (m: nat)
    requires Run(t, a) && p < j < |t| && PendingAt(t, p, c, k) && InCondBetween(t, p, j, c) && !InCondAt(t, j, c)
    ensures p <= m < j - 1 && (forall q: nat :: p <= q <= m ==> PendingAt(t, q, c, k))
    ensures c < |t[j].pcs| && t[j].pcs[c].Idle? && t[j].pcs[c].holds && CondEndedBy(a[m], c, k, t[j].pcs[c].last)
    ensures forall q: nat :: m < q < j ==> OverAt(t, q, c, t[j].pcs[c].last)
    decreases j - p
  {
    var p' := p + 1;
    CondEndAt(t, a, p, p', c, k);
    assert InCondBetween(t, p', j, c);
    if PendingAt(t, p', c, k) {
      m := PendingUntil(t, a, p', j, c, k);
    } else {
      m := p;
      var st :| OverAt(t, p', c, st) && CondEndedBy(a[p], c, k, st);
      OverUntil(t, a, p', j, c, st);
    }
  }

  /**
   Why cond_wait returned what it returned. The wait on condition k that step i began is pending
   up to m and over from then on; the call returns OK exactly if step m is a signal or a broadcast
   of k, and CANCELED or TIMEDOUT exactly if it is that withdrawal of the caller.
   */
  lemma {:induction false} CondWaitCause(t: seq<State>, a: seq<Step>, i: nat, j: nat, c: nat, k: nat) returns (m: nat)
    requires Run(t, a) && i + 1 < j < |t| && a[i] == DoCondEnter(c, k) && InCondBetween(t, i, j, c) && !InCondAt(t, j, c)
    ensures i < m < j - 1 && (forall q: nat :: i < q <= m ==> PendingAt(t, q, c, k))
    ensures c < |t[j].pcs| && t[j].pcs[c].Idle?
    ensures forall q: nat :: m < q < j ==> OverAt(t, q, c, t[j].pcs[c].last)
    ensures CondEndedBy(a[m], c, k, t[j].pcs[c].last)
  {
    var p := i + 1;
    assert InCondAt(t, p, c);
    assert Next(t[i], a[i], t[i + 1]);
    m := PendingUntil(t, a, p, j, c, k);
  }

  /** A blocked lock ends with OK by the owner's handing over, and with a failure by that withdrawal. */
  ghost predicate LockEndedBy(s: State, a: Step, c: nat, st: Status) {
    && (st == Ok <==> HandsOver(s, a, c))
    && (st == Canceled <==> a == DoWithdraw(c, Canceled))
    && (st == TimedOut <==> a == DoWithdraw(c, TimedOut))
    && st in {Ok, Canceled, TimedOut}
  }

  /** The owner unlocks, or releases the mutex to wait on a condition, while c waits longest. */
  ghost predicate HandsOver(s: State, a: Step, c: nat) {
    && (a.DoUnlock? || a.DoCondRelease?) && s.mx.owner == Held(a.c)
    && s.mx.queue != [] && s.mx.queue[0] == c
  }

  ghost predicate LockFateAt(t: seq<State>, m: nat, c: nat, fate: Fate) {
    m < |t| && c < |t[m].pcs| && t[m].pcs[c] == LockWait(fate)
  }

  lemma {:induction false} LockDecidedStep(s: State, a: Step, s': State, c: nat)
    requires Inv(s) && Next(s, a, s') && c < |s.pcs| == |s'.pcs| && s.pcs[c] == LockWait(Pending)
    requires a.DoUnlock? || a.DoCondRelease? || a.DoWithdraw?
    ensures s'.pcs[c].LockWait?
    ensures s'.pcs[c].fate == Pending || LockEndedBy(s, a, c, s'.pcs[c].fate.st)
  {
  }

  lemma {:induction false} LockKeptStep(s: State, a: Step, s': State, c: nat)
    requires Inv(s) && Next(s, a, s') && c < |s.pcs| == |s'.pcs| && s.pcs[c] == LockWait(Pending)
    requires !(a.DoUnlock? || a.DoCondRelease? || a.DoWithdraw?)
    ensures s'.pcs[c] == LockWait(Pending)
  {
    if a.DoSignal? && s.conds[a.k] != [] {
      assert s.conds[a.k][0] in s.conds[a.k];
    }
  }

  lemma {:induction false} LockEndStep(s: State, a: Step, s': State, c: nat)
    requires Inv(s) && Next(s, a, s') && c < |s.pcs| == |s'.pcs| && s.pcs[c] == LockWait(Pending)
    ensures s'.pcs[c].LockWait?
    ensures s'.pcs[c].fate == Pending || LockEndedBy(s, a, c, s'.pcs[c].fate.st)
  {
    if a.DoUnlock? || a.DoCondRelease? || a.DoWithdraw? {
      LockDecidedStep(s, a, s', c);
    } else {
      LockKeptStep(s, a, s', c);
    }
  }

  lemma {:induction false} LockDoneStep(s: State, a: Step, s': State, c: nat, st: Status)
    requires Inv(s) && Next(s, a, s') && c < |s.pcs| == |s'.pcs| && s.pcs[c] == LockWait(Decided(st))
    ensures s'.pcs[c] == s.pcs[c] || s'.pcs[c] == Idle(st == Ok, st)
  {
  }

  lemma {:induction false} LockEndAt(t: seq<State>, a: seq<Step>, m: nat, m': nat, c: nat)
    requires Run(t, a) && m' == m + 1 < |t| && LockFateAt(t, m, c, Pending)
    ensures LockFateAt(t, m', c, Pending) || exists st :: LockFateAt(t, m', c, Decided(st)) && LockEndedBy(t[m], a[m], c, st)
  {
    RunInv(t, a, m);
    RunInv(t, a, m');
    assert Next(t[m], a[m], t[m + 1]);
    LockEndStep(t[m], a[m], t[m'], c);
    if !LockFateAt(t, m', c, Pending) {
      assert LockFateAt(t, m', c, Decided(t[m'].pcs[c].fate.st));
    }
  }

  ghost predicate LockWaitBetween(t: seq<State>, i: nat, j: nat, c: nat) {
    forall m: nat :: i < m < j ==> m < |t| && c < |t[m].pcs| && t[m].pcs[c].LockWait?
  }

  ghost predicate LockOver(t: seq<State>, j: nat, c: nat) {
    j < |t| && c < |t[j].pcs| && !t[j].pcs[c].LockWait?
  }

  lemma {:induction false} LockDoneUntil(t: seq<State>, a: seq<Step>, p: nat, j: nat, c: nat, st: Status)
    requires Run(t, a) && p < j < |t| && LockFateAt(t, p, c, Decided(st)) && LockWaitBetween(t, p, j, c) && LockOver(t, j, c)
    ensures forall q: nat :: p <= q < j ==> LockFateAt(t, q, c, Decided(st))
    ensures t[j].pcs[c] == Idle(st == Ok, st)
    decreases j - p
  {
    var p' := p + 1;
    RunInv(t, a, p);
    RunInv(t, a, p');
    assert Next(t[p], a[p], t[p + 1]);
    LockDoneStep(t[p], a[p], t[p'], c, st);
    if p' < j {
      assert LockWaitBetween(t, p', j, c);
      LockDoneUntil(t, a, p', j, c, st);
    }
  }

  lemma {:induction false} LockPendingUntil(t: seq<State>, a: seq<Step>, p: nat, j: nat, c: nat) returns (m: nat)
    requires Run(t, a) && p < j < |t| && LockFateAt(t, p, c, Pending) && LockWaitBetween(t, p, j, c) && LockOver(t, j, c)
    ensures p <= m < j - 1 && (forall q: nat :: p <= q <= m ==> LockFateAt(t, q, c, Pending))
    ensures t[j].pcs[c].Idle? && LockEndedBy(t[m], a[m], c, t[j].pcs[c].last)
    ensures forall q: nat :: m < q < j ==> LockFateAt(t, q, c, Decided(t[j].pcs[c].last))
    decreases j - p
  {
    var p' := p + 1;
    LockEndAt(t, a, p, p', c);
    assert LockWaitBetween(t, p', j, c);
    if LockFateAt(t, p', c, Pending) {
      m := LockPendingUntil(t, a, p', j, c);
    } else {
      m := p;
      var st :| LockFateAt(t, p', c, Decided(st)) && LockEndedBy(t[p], a[p], c, st);
      LockDoneUntil(t, a, p', j, c, st);
    }
  }

  /**
   Why a blocked lock returned what it returned: it waits up to step m and is decided from then
   on; it returns OK exactly if step m hands the mutex over to it as the longest waiter, and
   CANCELED or TIMEDOUT exactly if it is that withdrawal of the caller.
   */
  lemma {:induction false} LockCause(t: seq<State>, a: seq<Step>, i: nat, j: nat, c: nat) returns (m: nat)
    requires Run(t, a) && i + 1 < j < |t| && a[i] == DoLock(c) && LockWaitBetween(t, i, j, c) && LockOver(t, j, c)
    ensures i < m < j - 1 && (forall q: nat :: i < q <= m ==> LockFateAt(t, q, c, Pending))
    ensures t[j].pcs[c].Idle?
    ensures forall q: nat :: m < q < j ==> LockFateAt(t, q, c, Decided(t[j].pcs[c].last))
    ensures LockEndedBy(t[m], a[m], c, t[j].pcs[c].last)
  {
    var p := i + 1;
    assert Next(t[i], a[i], t[i + 1]);
    m := LockPendingUntil(t, a, p, j, c);
  }

  /** A refused cond_wait, or one by another coroutine than the owner, leaves the ownership as it was. */
  lemma {:induction false} CondRefused(t: seq<State>, a: seq<Step>, i: nat, c: nat, k: nat)
    requires Run(t, a) && i < |a| && c < |t[i].pcs| && t[i].mx.owner != Held(c)
    requires a[i] == DoCondEnter(c, k)
    ensures |t[i + 1].pcs| == |t[i].pcs| && t[i + 1].pcs[c] == Idle(false, Perm)
    ensures t[i + 1].mx == t[i].mx && t[i + 1].conds == t[i].conds && t[i + 1].ticket == t[i].ticket
    ensures forall d: nat :: d < |t[i].pcs| && d != c ==> t[i + 1].pcs[d] == t[i].pcs[d]
  {
    RunInv(t, a, i);
    assert Next(t[i], a[i], t[i + 1]);
  }

  /** The mutex passes only to the longest parked waiter, or to an arrival that finds nobody owning or waiting. */
  lemma {:induction false} HandoffInOrder(t: seq<State>, a: seq<Step>, i: nat, b: nat)
    requires Run(t, a) && i < |a| && t[i].mx.owner != Held(b) && t[i + 1].mx.owner == Held(b)
    ensures b < |t[i].ticket| == |t[i + 1].ticket|
    ensures t[i].mx == Mx(Nobody, []) || b in t[i].mx.queue
    ensures forall c :: c in t[i + 1].mx.queue ==>
              c < |t[i].ticket| && c in t[i].mx.queue && t[i].ticket[b] < t[i].ticket[c]
  {
    RunInv(t, a, i);
    RunInv(t, a, i + 1);
    assert Next(t[i], a[i], t[i + 1]);
    PassedOn(t[i], a[i], t[i + 1], b);
  }

  lemma {:induction false} PassedOn(s: State, a: Step, s': State, b: nat)
    requires Inv(s) && Next(s, a, s') && s.mx.owner != Held(b) && s'.mx.owner == Held(b)
    ensures b < |s.ticket| == |s'.ticket|
    ensures s.mx == Mx(Nobody, []) || b in s.mx.queue
    ensures forall c :: c in s'.mx.queue ==> c < |s.ticket| && c in s.mx.queue && s.ticket[b] < s.ticket[c]
  {
    if s.mx != Mx(Nobody, []) {
      assert a.DoUnlock? || a.DoCondRelease?;
      assert s.mx.queue != [] && b == s.mx.queue[0] && s'.mx.queue == s.mx.queue[1..];
      HeadFirst(s);
    }
  }

  lemma {:induction false} HeadFirst(s: State)
    requires MutexQueueOk(s) && OrderOk(s) && s.mx.queue != []
    ensures s.mx.queue[0] < |s.ticket|
    ensures forall c :: c in s.mx.queue[1..] ==>
              c < |s.ticket| && c in s.mx.queue && s.ticket[s.mx.queue[0]] < s.ticket[c]
  {
    var q := s.mx.queue;
    assert q[0] in q;
    forall c | c in q[1..]
      ensures c < |s.ticket| && c in q && s.ticket[q[0]] < s.ticket[c]
    {
      var j :| 0 < j < |q| && q[j] == c;
      assert q[j] in q;
    }
  }

  /** Every pending condition wait can be signaled: its coroutine is listed from before it releases the mutex. */
  lemma {:induction false} CondWaiterListed(t: seq<State>, a: seq<Step>, i: nat, c: nat, k: nat)
    requires Run(t, a) && i < |t| && c < |t[i].pcs| && InCondQueue(t[i].pcs[c], k)
    ensures k < |t[i].conds| && c in t[i].conds[k]
  {
    RunInv(t, a, i);
  }

  /** A signal ends the oldest pending wait of its condition, if any; a broadcast ends them all. */
  lemma {:induction false} SignalWakesOldest(t: seq<State>, a: seq<Step>, i: nat, k: nat, c: nat)
    requires Run(t, a) && i < |a| && c < |t[i].pcs| && InCondQueue(t[i].pcs[c], k)
    requires a[i] == DoSignal(k) || a[i] == DoBroadcast(k)
    ensures |t[i + 1].pcs| == |t[i].pcs| == |t[i].ticket|
    ensures a[i] == DoBroadcast(k) ==> t[i + 1].pcs[c] == Decide(t[i].pcs[c], Ok)
    ensures t[i + 1].pcs[c] == Decide(t[i].pcs[c], Ok)
         || exists d: nat :: d < |t[i].pcs| && InCondQueue(t[i].pcs[d], k) && t[i].ticket[d] < t[i].ticket[c]
                          && t[i + 1].pcs[d] == Decide(t[i].pcs[d], Ok)
  {
    RunInv(t, a, i);
    assert Next(t[i], a[i], t[i + 1]);
    var s := t[i];
    var q := s.conds[k];
    assert c in q;
    if a[i] == DoSignal(k) && q[0] != c {
      var j :| 0 <= j < |q| && q[j] == c;
      assert q[0] in q && InCondQueue(s.pcs[q[0]], k) && s.ticket[q[0]] < s.ticket[q[j]];
    }
  }

  lemma {:induction false} Unaffected(s: State, a: Step, s': State, c: nat)
    requires Inv(s) && Next(s, a, s') && c < |s.pcs| == |s'.pcs| && s.pcs[c].LockWait? && s'.pcs[c].Idle?
    ensures s'.mx.owner == Held(c) <==> s'.pcs[c].last == Ok
  {
    assert a == DoLockReturn(c);
  }
}
