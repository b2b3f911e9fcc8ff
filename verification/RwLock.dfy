/**
 The read-write lock: one FIFO of parked readers and writers, reader batches, cancellation
 and deadlines that withdraw a parked request. Each method is one critical section of the
 lock's ticket lock. A request carries the number of its arrival.
 */
module RwLocks {
  import opened Lists

  datatype Request = Request(id: nat, cr: nat, writer: bool)

  datatype Rw = Rw(readers: nat, writer: bool, queue: seq<Request>)

  datatype Outcome = Acquired | Queued | Busy | NotHeld | Released

  predicate IsFree(s: Rw) {
    s.readers == 0 && !s.writer
  }

  /** The invariant every operation keeps: exclusion, and no request queued on a free lock. */
  ghost predicate Good(s: Rw) {
    && !(s.writer && s.readers > 0)
    && (s.queue != [] ==> !IsFree(s))
    && Sorted(s.queue)
  }

  ghost predicate Sorted(q: seq<Request>) {
    forall i, j :: 0 <= i < j < |q| ==> q[i].id < q[j].id
  }

  // ---------------------------------------------------------------- what the operations compute

  /** How many requests at the head of the queue are readers. */
  function LeadingReaders(q: seq<Request>): (k: nat)
    ensures k <= |q|
    ensures forall i :: 0 <= i < k ==> !q[i].writer
    ensures k < |q| ==> q[k].writer
  {
    if q == [] || q[0].writer then 0 else 1 + LeadingReaders(q[1..])
  }

  /** The requests an unlock that frees the lock hands it to: one writer, or the leading readers. */
  function Batch(q: seq<Request>): (k: nat)
    ensures k <= |q|
    ensures q != [] ==> k > 0
  {
    if q != [] && q[0].writer then 1 else LeadingReaders(q)
  }

  /** When an arriving request gets the lock at once. */
  predicate Admits(s: Rw, writer: bool) {
    if writer then IsFree(s) else !s.writer && s.queue == []
  }

  function Taken(s: Rw, writer: bool): Rw {
    if writer then s.(writer := true) else s.(readers := s.readers + 1)
  }

  function AfterRelease(s: Rw): Rw {
    if s.writer then s.(writer := false) else if s.readers > 0 then s.(readers := s.readers - 1) else s
  }

  function Unlocked(s: Rw): Rw {
    var r := AfterRelease(s);
    if IsFree(r) && r.queue != [] then
      if r.queue[0].writer then Rw(0, true, r.queue[1..])
      else Rw(Batch(r.queue), false, r.queue[Batch(r.queue)..])
    else r
  }

  function GrantedBy(s: Rw): seq<Request> {
    var r := AfterRelease(s);
    if IsFree(s) then [] else if IsFree(r) then r.queue[..Batch(r.queue)] else []
  }

  lemma {:induction false} SortedRemove(q: seq<Request>, r: Request)
    requires Sorted(q)
    ensures Sorted(Remove(q, r)) && forall x :: x in Remove(q, r) ==> x in q
  {
    RemoveFacts(q, r);
    forall i, j | 0 <= i < j < |Remove(q, r)|
      ensures Remove(q, r)[i].id < Remove(q, r)[j].id
    {
      var i', j' := RemoveKeepsOrder(q, r, i, j);
    }
  }

  // ---------------------------------------------------------------- the lock

  class RwLock {
    var readers: nat
    var writer: bool
    var waiters: seq<Request>

    ghost function State(): Rw
      reads this
    {
      Rw(readers, writer, waiters)
    }

    constructor ()
      ensures State() == Rw(0, false, []) && Good(State())
    {
      readers, writer, waiters := 0, false, [];
    }

    method TryRdLock() returns (out: Outcome)
      requires Good(State())
      modifies this
      ensures Good(State())
      ensures out == if Admits(old(State()), false) then Acquired else Busy
      ensures State() == if out == Acquired then Taken(old(State()), false) else old(State())
    {
      if !writer && waiters == [] {
        readers := readers + 1;
        return Acquired;
      }
      return Busy;
    }

    method RdLock(r: Request) returns (out: Outcome)
      requires Good(State()) && !r.writer && forall q :: q in waiters ==> q.id < r.id
      modifies this
      ensures Good(State())
      ensures out == if Admits(old(State()), false) then Acquired else Queued
      ensures State() == if out == Acquired then Taken(old(State()), false)
                         else old(State()).(queue := old(waiters) + [r])
    {
      if !writer && waiters == [] {
        readers := readers + 1;
        return Acquired;
      }
      waiters := waiters + [r];
      return Queued;
    }

    /** Does not look at the queue; the invariant makes that harmless. */
    method TryWrLock() returns (out: Outcome)
      requires Good(State())
      modifies this
      ensures Good(State())
      ensures out == if Admits(old(State()), true) then Acquired else Busy
      ensures out == Acquired ==> old(waiters) == []
      ensures State() == if out == Acquired then Taken(old(State()), true) else old(State())
    {
      if !writer && readers == 0 {
        writer := true;
        return Acquired;
      }
      return Busy;
    }

    method WrLock(r: Request) returns (out: Outcome)
      requires Good(State()) && r.writer && forall q :: q in waiters ==> q.id < r.id
      modifies this
      ensures Good(State())
      ensures out == if Admits(old(State()), true) then Acquired else Queued
      ensures State() == if out == Acquired then Taken(old(State()), true)
                         else old(State()).(queue := old(waiters) + [r])
    {
      if !writer && readers == 0 && waiters == [] {
        writer := true;
        return Acquired;
      }
      waiters := waiters + [r];
      return Queued;
    }

    /** The loop of unlock that hands a free lock to the readers at the head of the queue. */
    method GrantReaders() returns (granted: seq<Request>)
      requires readers == 0 && !writer
      modifies this
      ensures var k := LeadingReaders(old(waiters));
        granted == old(waiters)[..k] && waiters == old(waiters)[k..] && readers == k && !writer
    {
      ghost var q := waiters;
      ghost var i := 0;
      granted := [];
      while waiters != [] && !waiters[0].writer
        invariant i <= |q| && granted == q[..i] && waiters == q[i..] && readers == i && !writer
        invariant i + LeadingReaders(waiters) == LeadingReaders(q)
        decreases |waiters|
      {
        assert q[i..][1..] == q[i + 1..] && q[..i] + [q[i]] == q[..i + 1];
        granted := granted + [waiters[0]];
        waiters := waiters[1..];
        readers := readers + 1;
        i := i + 1;
      }
    }

    /** Release, then grant the head of the queue: one writer, or a batch of readers. */
    method Unlock() returns (out: Outcome, granted: seq<Request>)
      requires Good(State())
      modifies this
      ensures Good(State())
      ensures out == if IsFree(old(State())) then NotHeld else Released
      ensures State() == Unlocked(old(State()))
      ensures granted == GrantedBy(old(State()))
    {
      UnlockedGood(State());
      granted := [];
      if writer {
        writer := false;
      } else if readers > 0 {
        readers := readers - 1;
      } else {
        return NotHeld, [];
      }
      if readers == 0 && !writer && waiters != [] {
        if waiters[0].writer {
          granted := [waiters[0]];
          waiters := waiters[1..];
          writer := true;
        } else {
          granted := GrantReaders();
        }
      }
      return Released, granted;
    }

    /** A cancel or deadline unlinks a parked request and grants nothing. */
    method Withdraw(r: Request)
      requires Good(State())
      modifies this
      ensures Good(State())
      ensures State() == old(State()).(queue := Remove(old(waiters), r))
    {
      SortedRemove(waiters, r);
      var i := 0;
      while i < |waiters| && waiters[i] != r
        invariant i <= |waiters| && forall j :: 0 <= j < i ==> waiters[j] != r
      {
        i := i + 1;
      }
      RemoveAt(waiters, r, i);
      if i < |waiters| {
        waiters := waiters[..i] + waiters[i + 1..];
      }
    }
  }

  /** The unlock keeps exclusion and never leaves a request queued on a free lock. */
  lemma {:induction false} UnlockedGood(s: Rw)
    requires Good(s)
    ensures Good(Unlocked(s))
  {
    var r := AfterRelease(s);
    if IsFree(r) && r.queue != [] {
      assert Batch(r.queue) > 0;
    }
  }

  // ---------------------------------------------------------------- runs

  /** The lock together with who holds it; `arrivals` numbers the requests. */
  datatype Sys = Sys(rw: Rw, readersHeld: multiset<nat>, writersHeld: multiset<nat>, arrivals: nat)

  /** Requests that acquired the lock in a step. */
  ghost predicate Step(s: Sys, s': Sys, acquired: seq<Request>) {
    || (exists r: Request :: Arrive(s, r, s', acquired))
    || (exists cr: nat :: UnlockBy(s, cr, s', acquired))
    || (exists r: Request :: WithdrawOf(s, r, s', acquired))
  }

  ghost predicate Arrive(s: Sys, r: Request, s': Sys, acquired: seq<Request>) {
    && r.id == s.arrivals
    && s' == s.(arrivals := s.arrivals + 1, rw := s'.rw, readersHeld := s'.readersHeld, writersHeld := s'.writersHeld)
    && if Admits(s.rw, r.writer) then
         // rdlock, tryrdlock, wrlock and trywrlock take a lock that is there to take
         && acquired == [r]
         && s'.rw == Taken(s.rw, r.writer)
         && s'.readersHeld == (if r.writer then s.readersHeld else s.readersHeld + multiset{r.cr})
         && s'.writersHeld == (if r.writer then s.writersHeld + multiset{r.cr} else s.writersHeld)
       else
         // rdlock and wrlock park; the try forms give up
         && acquired == [] && s'.readersHeld == s.readersHeld && s'.writersHeld == s.writersHeld
         && (s'.rw == s.rw || s'.rw == s.rw.(queue := s.rw.queue + [r]))
  }

  function HoldersOf(q: seq<Request>, writer: bool): multiset<nat> {
    if q == [] then multiset{}
    else (if q[0].writer == writer then multiset{q[0].cr} else multiset{}) + HoldersOf(q[1..], writer)
  }

  /** unlock, called by anyone: the code drops a hold without asking whose. */
  ghost predicate UnlockBy(s: Sys, cr: nat, s': Sys, acquired: seq<Request>) {
    && acquired == GrantedBy(s.rw)
    && s' == if IsFree(s.rw) then s else s.(
         rw := Unlocked(s.rw),
         readersHeld := (if s.rw.writer then s.readersHeld else s.readersHeld - multiset{cr}) + HoldersOf(acquired, false),
         writersHeld := (if s.rw.writer then s.writersHeld - multiset{cr} else s.writersHeld) + HoldersOf(acquired, true))
  }

  ghost predicate Holder(s: Sys, cr: nat) {
    if s.rw.writer then cr in s.writersHeld else cr in s.readersHeld
  }

  ghost predicate WithdrawOf(s: Sys, r: Request, s': Sys, acquired: seq<Request>) {
    acquired == [] && s' == s.(rw := s.rw.(queue := Remove(s.rw.queue, r)))
  }

  ghost predicate Run(t: seq<Sys>, acq: seq<seq<Request>>) {
    && |t| == |acq| + 1 && t[0] == Sys(Rw(0, false, []), multiset{}, multiset{}, 0)
    && forall i :: 0 <= i < |acq| ==> Step(t[i], t[i + 1], acq[i])
  }

  /** What every step keeps, whoever unlocks. */
  ghost predicate SysInv(s: Sys) {
    Good(s.rw) && forall r :: r in s.rw.queue ==> r.id < s.arrivals
  }

  /** The counters of the lock are those of its holders. */
  ghost predicate Counted(s: Sys) {
    |s.readersHeld| == s.rw.readers && |s.writersHeld| == if s.rw.writer then 1 else 0
  }

  lemma {:induction false} BatchHolders(q: seq<Request>, k: nat)
    requires k == LeadingReaders(q)
    ensures |HoldersOf(q[..k], false)| == k && HoldersOf(q[..k], true) == multiset{}
  {
    if k > 0 {
      BatchHolders(q[1..], k - 1);
      assert q[..k][1..] == q[1..][..k - 1];
    }
  }

  /** An unlock keeps the counters equal to the holders if and only if its caller is one. */
  lemma {:induction false} UnlockCounts(s: Sys, cr: nat, s': Sys, acquired: seq<Request>)
    requires Counted(s) && !(s.rw.writer && s.rw.readers > 0) && UnlockBy(s, cr, s', acquired) && !IsFree(s.rw)
    ensures Counted(s') <==> Holder(s, cr)
  {
    GrantedCounts(s.rw);
    if s.rw.writer {
      DropOne(s.writersHeld, cr);
    } else {
      DropOne(s.readersHeld, cr);
    }
  }

  lemma {:induction false} DropOne(m: multiset<nat>, x: nat)
    ensures |m - multiset{x}| == |m| - if x in m then 1 else 0
  {
    if x in m {
      assert m == (m - multiset{x}) + multiset{x};
    } else {
      assert m - multiset{x} == m;
    }
  }

  /** An unlock counts exactly those it hands the lock to. */
  lemma {:induction false} GrantedCounts(s: Rw)
    requires !(s.writer && s.readers > 0) && !IsFree(s)
    ensures var g, r, u := GrantedBy(s), AfterRelease(s), Unlocked(s);
      && u.readers == r.readers + |HoldersOf(g, false)|
      && (if u.writer then 1 else 0) == (if r.writer then 1 else 0) + |HoldersOf(g, true)|
  {
    var q := s.queue;
    if GrantedBy(s) != [] {
      if q[0].writer {
        assert GrantedBy(s) == [q[0]];
        assert HoldersOf([q[0]], true) == multiset{q[0].cr} && HoldersOf([q[0]], false) == multiset{};
      } else {
        BatchHolders(q, LeadingReaders(q));
      }
    }
  }

  lemma {:induction false} UnlockQueue(s: Sys, cr: nat, s': Sys, acquired: seq<Request>)
    requires (forall r :: r in s.rw.queue ==> r.id < s.arrivals) && UnlockBy(s, cr, s', acquired)
    ensures forall r :: r in s'.rw.queue ==> r.id < s'.arrivals
  {
    assert forall r :: r in Unlocked(s.rw).queue ==> r in s.rw.queue;
  }

  lemma {:induction false} StepInv(s: Sys, s': Sys, acquired: seq<Request>)
    requires SysInv(s) && Step(s, s', acquired)
    ensures SysInv(s')
  {
    if r: Request :| Arrive(s, r, s', acquired) {
    } else if cr: nat :| UnlockBy(s, cr, s', acquired) {
      UnlockedGood(s.rw);
      UnlockQueue(s, cr, s', acquired);
    } else {
      var r: Request :| WithdrawOf(s, r, s', acquired);
      SortedRemove(s.rw.queue, r);
    }
  }

  lemma {:induction false} RunInv(t: seq<Sys>, acq: seq<seq<Request>>, i: nat)
    requires Run(t, acq) && i < |t|
    ensures SysInv(t[i])
  {
    if i > 0 {
      RunInv(t, acq, i - 1);
      assert Step(t[i - 1], t[i - 1 + 1], acq[i - 1]);
      StepInv(t[i - 1], t[i], acq[i - 1]);
    }
  }

  /** In every run, whoever unlocks: a writer or readers but never both, and nobody queued on a free lock, whatever was withdrawn. */
  lemma {:induction false} ExclusionInEveryRun(t: seq<Sys>, acq: seq<seq<Request>>, i: nat)
    requires Run(t, acq) && i < |t|
    ensures !(t[i].rw.writer && t[i].rw.readers > 0)
    ensures IsFree(t[i].rw) ==> t[i].rw.queue == []
  {
    RunInv(t, acq, i);
  }

  /** A step that is not an unlock by somebody who does not hold the lock. */
  ghost predicate Disciplined(s: Sys, s': Sys, acquired: seq<Request>) {
    || (exists r: Request :: Arrive(s, r, s', acquired))
    || (exists cr: nat :: UnlockBy(s, cr, s', acquired) && (IsFree(s.rw) || Holder(s, cr)))
    || (exists r: Request :: WithdrawOf(s, r, s', acquired))
  }

  ghost predicate DisciplinedRun(t: seq<Sys>, acq: seq<seq<Request>>, i: nat) {
    |t| == |acq| + 1 && i <= |acq| && forall j: nat :: j < i ==> Disciplined(t[j], t[j + 1], acq[j])
  }

  lemma {:induction false} DisciplinedAt(t: seq<Sys>, acq: seq<seq<Request>>, i: nat)
    requires DisciplinedRun(t, acq, i + 1)
    ensures DisciplinedRun(t, acq, i) && Disciplined(t[i], t[i + 1], acq[i])
  {
  }

  lemma {:induction false} ArriveCounts(s: Sys, r: Request, s': Sys, acquired: seq<Request>)
    requires Good(s.rw) && Counted(s) && Arrive(s, r, s', acquired)
    ensures Counted(s')
  {
  }

  lemma {:induction false} HolderUnlock(s: Sys, cr: nat, s': Sys, acquired: seq<Request>)
    requires Good(s.rw) && Counted(s) && UnlockBy(s, cr, s', acquired) && (IsFree(s.rw) || Holder(s, cr))
    ensures Counted(s')
  {
    if !IsFree(s.rw) {
      UnlockCounts(s, cr, s', acquired);
    }
  }

  lemma {:induction false} DisciplinedStep(s: Sys, s': Sys, acquired: seq<Request>)
    requires Good(s.rw) && Counted(s) && Disciplined(s, s', acquired)
    ensures Counted(s')
  {
    if r: Request :| Arrive(s, r, s', acquired) {
      ArriveCounts(s, r, s', acquired);
    } else if cr: nat :| UnlockBy(s, cr, s', acquired) && (IsFree(s.rw) || Holder(s, cr)) {
      HolderUnlock(s, cr, s', acquired);
    }
  }

  lemma {:induction false} CountedNext(t: seq<Sys>, acq: seq<seq<Request>>, i: nat, i': nat)
    requires Run(t, acq) && i' == i + 1 && DisciplinedRun(t, acq, i') && Counted(t[i])
    ensures DisciplinedRun(t, acq, i) && Counted(t[i'])
  {
    DisciplinedAt(t, acq, i);
    RunInv(t, acq, i);
    DisciplinedStep(t[i], t[i'], acq[i]);
  }

  lemma {:induction false} CountedRun(t: seq<Sys>, acq: seq<seq<Request>>, i: nat)
    requires Run(t, acq) && DisciplinedRun(t, acq, i)
    ensures Counted(t[i])
  {
    if i > 0 {
      var p: nat := i - 1;
      DisciplinedAt(t, acq, p);
      CountedRun(t, acq, p);
      CountedNext(t, acq, p, i);
    }
  }

  /** As long as only holders unlock, the counters are the holders: one writer or any number of readers. */
  lemma {:induction false} HoldersInEveryRun(t: seq<Sys>, acq: seq<seq<Request>>, i: nat)
    requires Run(t, acq) && DisciplinedRun(t, acq, i)
    ensures Counted(t[i]) && |t[i].writersHeld| <= 1 && (|t[i].writersHeld| == 1 ==> |t[i].readersHeld| == 0)
    ensures |t[i].writersHeld| == 0 && |t[i].readersHeld| == 0 ==> t[i].rw.queue == []
  {
    CountedRun(t, acq, i);
    ExclusionInEveryRun(t, acq, i);
  }

  ghost predicate CountedAll(t: seq<Sys>, i: nat) {
    i < |t| && forall j: nat :: j <= i ==> Counted(t[j])
  }

  lemma {:induction false} DisciplineShows(s: Sys, s': Sys, acquired: seq<Request>)
    requires Good(s.rw) && Step(s, s', acquired) && Counted(s) && Counted(s')
    ensures Disciplined(s, s', acquired)
  {
    if cr: nat :| UnlockBy(s, cr, s', acquired) {
      if !IsFree(s.rw) {
        UnlockCounts(s, cr, s', acquired);
      }
    }
  }

  /** The counters are those of the holders all along a run if and only if nobody but a holder unlocks a held lock. */
  lemma {:induction false} CountedIff(t: seq<Sys>, acq: seq<seq<Request>>, i: nat)
    requires Run(t, acq) && i < |t|
    ensures CountedAll(t, i) <==> DisciplinedRun(t, acq, i)
  {
    if DisciplinedRun(t, acq, i) {
      forall j: nat | j <= i
        ensures Counted(t[j])
      {
        assert DisciplinedRun(t, acq, j);
        CountedRun(t, acq, j);
      }
    }
    if CountedAll(t, i) {
      forall j: nat | j < i
        ensures Disciplined(t[j], t[j + 1], acq[j])
      {
        RunInv(t, acq, j);
        assert Step(t[j], t[j + 1], acq[j]) && Counted(t[j]) && Counted(t[j + 1]);
        DisciplineShows(t[j], t[j + 1], acq[j]);
      }
    }
  }

  /** A stray unlock of a read-held lock lets a writer in beside the reader. */
  lemma {:induction false} StrayUnlock(a: nat, b: nat) returns (t: seq<Sys>, acq: seq<seq<Request>>)
    requires a != b
    ensures Run(t, acq) && |t| == 4 && UnlockBy(t[1], b, t[2], acq[1]) && !Holder(t[1], b)
    ensures !Counted(t[2]) && t[3].readersHeld == multiset{a} && t[3].writersHeld == multiset{b}
  {
    var r, w := Request(0, a, false), Request(1, b, true);
    var s0 := Sys(Rw(0, false, []), multiset{}, multiset{}, 0);
    var s1 := Sys(Rw(1, false, []), multiset{a}, multiset{}, 1);
    var s2 := s1.(rw := Rw(0, false, []));
    var s3 := Sys(Rw(0, true, []), multiset{a}, multiset{b}, 2);
    assert Arrive(s0, r, s1, [r]);
    assert UnlockBy(s1, b, s2, []) by {
      assert GrantedBy(s1.rw) == [] && multiset{a} - multiset{b} == multiset{a};
    }
    assert Arrive(s2, w, s3, [w]);
    t, acq := [s0, s1, s2, s3], [[r], [], [w]];
    assert Step(t[0], t[0 + 1], acq[0]) && Step(t[1], t[1 + 1], acq[1]) && Step(t[2], t[2 + 1], acq[2]);
  }

  /** No request acquires the lock while an earlier one stays parked, by whatever call it came. */
  lemma {:induction false} NoOvertaking(t: seq<Sys>, acq: seq<seq<Request>>, i: nat, r: Request, parked: Request)
    requires Run(t, acq) && i < |acq| && r in acq[i] && parked in t[i + 1].rw.queue
    ensures r.id < parked.id
  {
    RunInv(t, acq, i);
    RunInv(t, acq, i + 1);
    assert Step(t[i], t[i + 1], acq[i]);
    Overtaken(t[i], t[i + 1], acq[i], r, parked);
  }

  lemma {:induction false} Overtaken(s: Sys, s': Sys, acquired: seq<Request>, r: Request, parked: Request)
    requires SysInv(s) && Step(s, s', acquired) && r in acquired && parked in s'.rw.queue
    ensures r.id < parked.id
  {
    if cr: nat :| UnlockBy(s, cr, s', acquired) {
      GrantedAreFirst(s.rw, r, parked);
    } else {
      ArrivalTakesEmptyQueue(s, s', acquired, r);
    }
  }

  /** Whoever acquires on arrival, by lock or trylock, finds and leaves an empty queue. */
  lemma {:induction false} ArrivalTakesEmptyQueue(s: Sys, s': Sys, acquired: seq<Request>, r: Request)
    requires Good(s.rw) && r in acquired && Step(s, s', acquired)
    requires !exists cr: nat :: UnlockBy(s, cr, s', acquired)
    ensures s'.rw.queue == []
  {
  }

  /** An unlock grants a prefix of the queue, so the earliest arrivals among those still parked. */
  lemma {:induction false} GrantedAreFirst(s: Rw, r: Request, parked: Request)
    requires Sorted(s.queue) && r in GrantedBy(s) && parked in Unlocked(s).queue
    ensures r.id < parked.id
  {
    var q := s.queue;
    var k := Batch(q);
    assert GrantedBy(s) == q[..k] && Unlocked(s).queue == q[k..];
    var x :| 0 <= x < k && q[x] == r;
    var y :| k <= y < |q| && q[y] == parked;
  }

  // ---------------------------------------------------------------- who heads the queue

  ghost predicate WriterHeads(s: Rw) {
    !s.writer && s.queue != [] ==> s.queue[0].writer
  }

  /** The head writer, waiting for readers to leave, is withdrawn and a reader is next. */
  ghost predicate Uncovers(s: Sys, s': Sys) {
    var q := s.rw.queue;
    && !s.rw.writer && |q| >= 2 && q[0].writer && !q[1].writer
    && s' == s.(rw := s.rw.(queue := q[1..]))
  }

  lemma {:induction false} UnlockHead(s: Rw)
    requires Good(s) && WriterHeads(s)
    ensures WriterHeads(Unlocked(s))
  {
    var r := AfterRelease(s);
    if IsFree(r) && r.queue != [] && !r.queue[0].writer {
      var k := LeadingReaders(r.queue);
      assert k < |r.queue| ==> r.queue[k..][0] == r.queue[k];
    }
  }

  lemma {:induction false} WithdrawHead(s: Sys, r: Request, s': Sys)
    requires WriterHeads(s.rw) && WithdrawOf(s, r, s', [])
    ensures !WriterHeads(s'.rw) <==> Uncovers(s, s')
  {
    var q := s.rw.queue;
    if q != [] {
      if q[0] == r {
        assert |q| >= 2 ==> q[1..][0] == q[1];
      } else {
        assert Remove(q, r)[0] == q[0];
      }
    }
  }

  /** From a queue that a writer heads, a step loses that exactly by uncovering a reader. */
  lemma {:induction false} WriterHeadsStep(s: Sys, s': Sys, acquired: seq<Request>)
    requires SysInv(s) && Step(s, s', acquired) && WriterHeads(s.rw)
    ensures !WriterHeads(s'.rw) <==> Uncovers(s, s')
  {
    if r: Request :| WithdrawOf(s, r, s', acquired) {
      WithdrawHead(s, r, s');
    } else if cr: nat :| UnlockBy(s, cr, s', acquired) {
      UnlockHead(s.rw);
    }
  }

  ghost predicate CoveredRun(t: seq<Sys>, i: nat) {
    i < |t| && forall j: nat :: j < i ==> !Uncovers(t[j], t[j + 1])
  }

  ghost predicate HeadedRun(t: seq<Sys>, i: nat) {
    i < |t| && forall j: nat :: j <= i ==> WriterHeads(t[j].rw)
  }

  /**
   The queue of a lock without a writer is headed by a writer all along a run if and only if
   no step withdraws a head writer with a reader behind it.
   */
  lemma {:induction false} WriterHeadsQueue(t: seq<Sys>, acq: seq<seq<Request>>, i: nat)
    requires Run(t, acq) && i < |t|
    ensures HeadedRun(t, i) <==> CoveredRun(t, i)
  {
    if i > 0 {
      WriterHeadsQueue(t, acq, i - 1);
      HeadedLast(t, i);
      if HeadedRun(t, i - 1) {
        RunInv(t, acq, i - 1);
        assert Step(t[i - 1], t[i - 1 + 1], acq[i - 1]);
        WriterHeadsStep(t[i - 1], t[i], acq[i - 1]);
      }
    }
  }

  lemma {:induction false} HeadedLast(t: seq<Sys>, i: nat)
    requires 0 < i < |t|
    ensures HeadedRun(t, i) <==> HeadedRun(t, i - 1) && WriterHeads(t[i].rw)
    ensures CoveredRun(t, i) <==> CoveredRun(t, i - 1) && !Uncovers(t[i - 1], t[i])
    ensures HeadedRun(t, i - 1) ==> WriterHeads(t[i - 1].rw)
  {
    if CoveredRun(t, i) {
      assert !Uncovers(t[i - 1], t[i - 1 + 1]);
    }
  }

  /** Under a writer a reader can head the queue. */
  lemma {:induction false} ReaderHeadsUnderWriter(w: nat, r: nat) returns (t: seq<Sys>, acq: seq<seq<Request>>)
    ensures Run(t, acq) && var s := t[|t| - 1].rw; s.writer && |s.queue| == 1 && !s.queue[0].writer
  {
    var a, b := Request(0, w, true), Request(1, r, false);
    var s0 := Sys(Rw(0, false, []), multiset{}, multiset{}, 0);
    var s1 := Sys(Rw(0, true, []), multiset{}, multiset{w}, 1);
    var s2 := s1.(rw := Rw(0, true, [b]), arrivals := 2);
    assert Arrive(s0, a, s1, [a]);
    assert Arrive(s1, b, s2, []) by {
      assert s1.rw.queue + [b] == [b];
    }
    t, acq := [s0, s1, s2], [[a], []];
    assert Step(t[0], t[0 + 1], acq[0]) && Step(t[1], t[1 + 1], acq[1]);
  }

  /** After a cancel a reader can head the queue of a lock that readers hold. */
  lemma {:induction false} ReaderHeadsAfterCancel(c: nat) returns (t: seq<Sys>, acq: seq<seq<Request>>)
    ensures Run(t, acq) && var s := t[|t| - 1].rw; !s.writer && |s.queue| == 1 && !s.queue[0].writer
  {
    var a, w, b := Request(0, c, false), Request(1, c, true), Request(2, c, false);
    var s0 := Sys(Rw(0, false, []), multiset{}, multiset{}, 0);
    var s1 := Sys(Rw(1, false, []), multiset{c}, multiset{}, 1);
    var s2 := s1.(rw := Rw(1, false, [w]), arrivals := 2);
    var s3 := s1.(rw := Rw(1, false, [w, b]), arrivals := 3);
    var s4 := s1.(rw := Rw(1, false, [b]), arrivals := 3);
    assert Arrive(s0, a, s1, [a]);
    assert Arrive(s1, w, s2, []) by {
      assert s1.rw.queue + [w] == [w];
    }
    assert Arrive(s2, b, s3, []);
    assert WithdrawOf(s3, w, s4, []) by {
      assert [w, b][1..] == [b];
    }
    t, acq := [s0, s1, s2, s3, s4], [[a], [], [], []];
    assert Step(t[0], t[0 + 1], acq[0]) && Step(t[1], t[1 + 1], acq[1]);
    assert Step(t[2], t[2 + 1], acq[2]) && Step(t[3], t[3 + 1], acq[3]);
  }
}
