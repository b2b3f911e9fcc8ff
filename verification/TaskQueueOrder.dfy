/** How barriers are ordered among the other tasks of their queue. */
module TaskQueueOrder {
  import opened TaskQueues
  import opened TaskQueueInvariant
  import opened TaskQueueTheorems

  // ---------------------------------------------------------------- the order the code does give

  /** A step under the claim of drainer d begins nothing, or d's own barrier. */
  ghost predicate UnderClaim(s: State, s': State, q: nat, d: nat)
    requires q < |s.qs| && |s'.qs| == |s.qs| && d < |s.ds| && |s'.ds| == |s.ds|
  {
    || (s'.qs[q].started == s.qs[q].started && (InBody(s'.ds[d].pc) <==> InBody(s.ds[d].pc))
        && (HasJob(s.ds[d].pc) && HasJob(s'.ds[d].pc) ==> s'.ds[d].pc.job == s.ds[d].pc.job))
    || (s.ds[d].pc.Sleep? && s'.ds[d].pc == Running(s.ds[d].pc.job) && s'.qs[q].started == s.qs[q].started + [s.ds[d].pc.job])
  }

  predicate IsBegin(a: Step) {
    a.DoStartSerial? || a.DoEnter? || a.DoEnterClaimed?
  }

  lemma {:induction false} EndUnderClaim(s: State, e: nat, s': State, q: nat, d: nat)
    requires EndSection(s, e, s') && q < |s.qs| == |s'.qs| && d < |s.ds| == |s'.ds|
    requires s.qs[q].claim == By(d) && s'.qs[q].claim == By(d) && s.ds[d].q == q && Claims(s.ds[d].pc)
    requires s.ds[e].pc.job.barrier && s.ds[e].q == q ==> e == d
    requires e == d ==> s.ds[d].pc.job.barrier
    ensures UnderClaim(s, s', q, d)
  {
  }

  lemma {:induction false} QuietUnderClaim(s: State, a: Step, s': State, q: nat, d: nat)
    requires Next(s, a, s') && !IsBegin(a) && !a.DoEndSection? && q < |s.qs| == |s'.qs| && d < |s.ds| == |s'.ds|
    requires s.ds[d].q == q && Claims(s.ds[d].pc) && s.qs[q].conc > 1
    ensures UnderClaim(s, s', q, d)
  {
  }

  lemma {:induction false} BeginUnderClaim(s: State, a: Step, s': State, q: nat, d: nat)
    requires Next(s, a, s') && IsBegin(a) && q < |s.qs| == |s'.qs| && d < |s.ds| == |s'.ds|
    requires s.qs[q].claim == By(d) && s.ds[d].q == q && Claims(s.ds[d].pc) && s.qs[q].conc > 1
    requires Claims(s.ds[a.d].pc) && s.ds[a.d].q == q ==> a.d == d
    ensures UnderClaim(s, s', q, d)
  {
  }

  lemma {:induction false} ClaimStep(s: State, a: Step, s': State, q: nat, d: nat)
    requires Inv(s) && Next(s, a, s') && q < |s.qs| == |s'.qs| && d < |s.ds| == |s'.ds|
    requires s.qs[q].claim == By(d) && s'.qs[q].claim == By(d)
    ensures UnderClaim(s, s', q, d)
  {
    Claimant(s, q, d);
    if IsBegin(a) {
      assert BarrierOk(s, a.d, s.ds[a.d]);
      BeginUnderClaim(s, a, s', q, d);
    } else if a.DoEndSection? {
      assert BarrierOk(s, a.d, s.ds[a.d]);
      EndUnderClaim(s, a.d, s', q, d);
    } else {
      QuietUnderClaim(s, a, s', q, d);
    }
  }

  lemma {:induction false} Claimant(s: State, q: nat, d: nat)
    requires Inv(s) && q < |s.qs| && s.qs[q].claim == By(d)
    ensures d < |s.ds| && s.ds[d].q == q && Claims(s.ds[d].pc) && s.ds[d].pc.job.barrier && s.qs[q].conc > 1
  {
    assert d < |s.ds| && BarrierOk(s, d, s.ds[d]);
  }

  lemma {:induction false} WhoClaims(s: State, a: Step, s': State, q: nat, d: nat)
    requires Next(s, a, s') && q < |s.qs| == |s'.qs| && s.qs[q].claim == Unclaimed && s'.qs[q].claim == By(d)
    ensures a == DoEnter(d) && d < |s.ds| && s.ds[d].q == q
  {
  }

  /** The step in which drainer d claims queue q for its barrier. */
  lemma {:induction false} ClaimingStep(s: State, a: Step, s': State, q: nat, d: nat)
    requires Next(s, a, s') && q < |s.qs| == |s'.qs| && d < |s.ds| == |s'.ds|
    requires s.qs[q].claim == Unclaimed && s'.qs[q].claim == By(d)
    ensures HasJob(s'.ds[d].pc) && UpTo(s', q, d, s.qs[q].started, s'.ds[d].pc.job)
  {
    WhoClaims(s, a, s', q, d);
    assert Enter(s, d, s');
  }

  /** The barrier b of drainer d has not begun since `before` was the list of begun tasks, or is the only one to. */
  ghost predicate UpTo(s: State, q: nat, d: nat, before: seq<Job>, b: Job) {
    && q < |s.qs| && d < |s.ds| && HasJob(s.ds[d].pc) && s.ds[d].pc.job == b
    && (if InBody(s.ds[d].pc) then s.qs[q].started == before + [b] else s.qs[q].started == before)
  }

  ghost predicate ClaimedAt(t: seq<State>, m: nat, q: nat, d: nat) {
    m < |t| && q < |t[m].qs| && t[m].qs[q].claim == By(d)
  }

  ghost predicate ClaimedFrom(t: seq<State>, i: nat, j: nat, q: nat, d: nat) {
    forall m :: i <= m <= j ==> ClaimedAt(t, m, q, d)
  }

  lemma {:induction false} Sizes(t: seq<State>, a: seq<Step>, i: nat)
    requires Run(t, a) && i + 1 < |t|
    ensures Next(t[i], a[i], t[i + 1]) && |t[i + 1].qs| == |t[i].qs| && |t[i + 1].ds| == |t[i].ds|
  {
    assert Next(t[i], a[i], t[i + 1]);
    SameSizes(t[i], a[i], t[i + 1]);
  }

  lemma {:induction false} SameSizes(s: State, a: Step, s': State)
    requires Next(s, a, s')
    ensures |s'.qs| == |s.qs| && |s'.ds| == |s.ds|
  {
  }

  lemma {:induction false} UpToStep(s: State, a: Step, s': State, q: nat, d: nat, before: seq<Job>, b: Job)
    requires Inv(s) && Next(s, a, s') && q < |s.qs| == |s'.qs| && d < |s.ds| == |s'.ds|
    requires s.qs[q].claim == By(d) && s'.qs[q].claim == By(d) && UpTo(s, q, d, before, b) && Claims(s'.ds[d].pc)
    ensures UpTo(s', q, d, before, b)
  {
    ClaimStep(s, a, s', q, d);
  }

  lemma {:induction false} UpToNext(t: seq<State>, a: seq<Step>, p: nat, j: nat, q: nat, d: nat, before: seq<Job>, b: Job)
    requires Run(t, a) && j == p + 1 < |t| && ClaimedAt(t, p, q, d) && ClaimedAt(t, j, q, d) && UpTo(t[p], q, d, before, b)
    ensures UpTo(t[j], q, d, before, b)
  {
    RunInv(t, a, p);
    RunInv(t, a, j);
    Sizes(t, a, p);
    Claimant(t[j], q, d);
    UpToStep(t[p], a[p], t[j], q, d, before, b);
  }

  lemma {:induction false} UpToRun(t: seq<State>, a: seq<Step>, i: nat, j: nat, q: nat, d: nat, before: seq<Job>, b: Job)
    requires Run(t, a) && i <= j < |t| && ClaimedFrom(t, i, j, q, d) && UpTo(t[i], q, d, before, b)
    ensures UpTo(t[j], q, d, before, b)
  {
    assert ClaimedAt(t, j, q, d);
    if i < j {
      var p: nat := j - 1;
      assert ClaimedAt(t, p, q, d) && ClaimedFrom(t, i, p, q, d);
      UpToRun(t, a, i, p, q, d, before, b);
      UpToNext(t, a, p, j, q, d, before, b);
    }
  }

  lemma {:induction false} StartedGrows(t: seq<State>, a: seq<Step>, j: nat, k: nat, q: nat)
    requires Run(t, a) && j <= k < |t| && q < |t[j].qs|
    ensures |t[k].qs| == |t[j].qs| && t[j].qs[q].started <= t[k].qs[q].started
  {
    if j < k {
      StartedGrows(t, a, j, k - 1, q);
      Sizes(t, a, k - 1);
      StartedStep(t[k - 1], a[k - 1], t[k], q);
    }
  }

  lemma {:induction false} StartedStep(s: State, a: Step, s': State, q: nat)
    requires Next(s, a, s') && q < |s.qs| == |s'.qs|
    ensures s.qs[q].started <= s'.qs[q].started
  {
  }

  /**
   Where a barrier stands: once it has begun, the tasks begun before it are exactly those that
   had begun when its drainer claimed the queue. So an earlier task comes before the barrier if
   and only if its drainer counted it before that claim.
   */
  lemma {:induction false} BarrierOrder(t: seq<State>, a: seq<Step>, c: nat, j: nat, k: nat, q: nat, d: nat)
    requires Run(t, a) && c < j <= k < |t| && q < |t[c].qs| && t[c].qs[q].claim == Unclaimed
    requires ClaimedFrom(t, c + 1, j, q, d) && d < |t[j].ds| && InBody(t[j].ds[d].pc)
    ensures |t[k].qs| == |t[c].qs| && t[j].ds[d].pc.job.barrier
    ensures t[c].qs[q].started + [t[j].ds[d].pc.job] <= t[k].qs[q].started
  {
    assert ClaimedAt(t, c + 1, q, d) && ClaimedAt(t, j, q, d);
    RunInv(t, a, c);
    RunInv(t, a, c + 1);
    RunInv(t, a, j);
    Sizes(t, a, c);
    Claimant(t[c + 1], q, d);
    Claimant(t[j], q, d);
    ClaimingStep(t[c], a[c], t[c + 1], q, d);
    UpToRun(t, a, c + 1, j, q, d, t[c].qs[q].started, t[c + 1].ds[d].pc.job);
    StartedGrows(t, a, j, k, q);
    StartedGrows(t, a, c, j, q);
  }

  /** The tasks of a list have begun, each once. */
  ghost predicate BegunOnce(s: State, l: seq<Job>) {
    Distinct(l) && forall k: nat :: k < |l| ==> l[k].id < |s.ts| && s.ts[l[k].id].runs > 0
  }

  lemma {:induction false} RunsGrow(s: State, a: Step, s': State, u: nat)
    requires Next(s, a, s') && u < |s.ts|
    ensures u < |s'.ts| && s'.ts[u].runs >= s.ts[u].runs
  {
  }

  /** A step leaves the begun tasks of a queue as they are, or adds one that had not begun. */
  lemma {:induction false} AddsOne(s: State, a: Step, s': State, q: nat)
    requires Inv(s) && Next(s, a, s') && q < |s.qs| == |s'.qs| && s'.qs[q].started != s.qs[q].started
    ensures IsBegin(a) && a.d < |s.ds| && HasJob(s.ds[a.d].pc) && s.ds[a.d].pc.job.id < |s.ts|
    ensures var b := s.ds[a.d].pc.job; s'.qs[q].started == s.qs[q].started + [b] && s.ts[b.id].runs == 0 && b.id < |s'.ts| && s'.ts[b.id].runs > 0
  {
    OnlyBegins(s, a, s', q);
    assert JobOk(s, a.d, s.ds[a.d]);
  }

  lemma {:induction false} OnlyBegins(s: State, a: Step, s': State, q: nat)
    requires Next(s, a, s') && q < |s.qs| == |s'.qs| && s'.qs[q].started != s.qs[q].started
    ensures IsBegin(a) && a.d < |s.ds| && HasJob(s.ds[a.d].pc)
  {
  }

  lemma {:induction false} BegunStep(s: State, a: Step, s': State, q: nat)
    requires Inv(s) && Next(s, a, s') && q < |s.qs| == |s'.qs| && BegunOnce(s, s.qs[q].started)
    ensures BegunOnce(s', s'.qs[q].started)
  {
    var l := s.qs[q].started;
    forall k: nat | k < |l|
      ensures l[k].id < |s'.ts| && s'.ts[l[k].id].runs > 0
    {
      RunsGrow(s, a, s', l[k].id);
    }
    if s'.qs[q].started != l {
      AddsOne(s, a, s', q);
    }
  }

  lemma {:induction false} BegunRun(t: seq<State>, a: seq<Step>, i: nat, q: nat)
    requires Run(t, a) && i < |t| && q < |t[i].qs|
    ensures BegunOnce(t[i], t[i].qs[q].started)
  {
    if i > 0 {
      var p: nat := i - 1;
      Sizes(t, a, p);
      BegunRun(t, a, p, q);
      RunInv(t, a, p);
      BegunStep(t[p], a[p], t[i], q);
    }
  }

  /**
   Position m of the begun tasks lies before the barrier if and only if that task had begun, so
   had been counted by its drainer, when the barrier's drainer claimed the queue.
   */
  lemma {:induction false} BeforeBarrierIff(t: seq<State>, a: seq<Step>, c: nat, j: nat, k: nat, q: nat, d: nat, m: nat)
    requires Run(t, a) && c < j <= k < |t| && q < |t[c].qs| && t[c].qs[q].claim == Unclaimed
    requires ClaimedFrom(t, c + 1, j, q, d) && d < |t[j].ds| && InBody(t[j].ds[d].pc)
    requires q < |t[k].qs| && m < |t[k].qs[q].started|
    ensures var l := t[k].qs[q].started;
      exists b: nat :: b < |l| && l[b] == t[j].ds[d].pc.job && (m < b <==> l[m] in t[c].qs[q].started)
  {
    BarrierOrder(t, a, c, j, k, q, d);
    BegunRun(t, a, k, q);
    var before, l := t[c].qs[q].started, t[k].qs[q].started;
    assert l[|before|] == (before + [t[j].ds[d].pc.job])[|before|];
    assert forall i :: 0 <= i < |before| ==> l[i] == before[i];
    assert m < |before| <==> l[m] in before;
  }

  // ---------------------------------------------------------------- the order it does not give

  /** Barriers begin in accepted order: what was accepted before a begun task has begun, when one of the two is a barrier or the queue is serial. */
  ghost predicate InAcceptedOrder(x: Queue) {
    forall i, j :: 0 <= i < j < |x.accepted| && (x.conc == 1 || x.accepted[i].barrier || x.accepted[j].barrier) ==>
      (x.accepted[j] in x.started ==> x.accepted[i] in x.started)
  }

  lemma {:induction false} SerialInOrder(t: seq<State>, a: seq<Step>, i: nat, q: nat)
    requires Run(t, a) && i < |t| && q < |t[i].qs| && t[i].qs[q].conc == 1
    ensures InAcceptedOrder(t[i].qs[q])
  {
    RunInv(t, a, i);
    var s := t[i];
    var x := s.qs[q];
    assert CrewOk(s.ds, q, x) && BufferOk(s, q, x);
    var d :| d in Crew(s.ds, q);
    SerialOrder(t, a, i, q, d, d);
    forall i, j | 0 <= i < j < |x.accepted| && x.accepted[j] in x.started
      ensures x.accepted[i] in x.started
    {
      var k :| 0 <= k < |x.started| && x.started[k] == x.accepted[j];
      assert x.accepted[k] == x.started[k];
      assert x.started[i] == x.accepted[i];
    }
  }

  ghost function Crowd(n: nat): seq<Drainer> {
    seq(n, i => Drainer(0, Recv))
  }

  lemma {:induction false} CrowdCrew(n: nat)
    ensures |Crew(Crowd(n), 0)| == n
  {
    if n > 0 {
      CrowdCrew(n - 1);
      assert Crew(Crowd(n), 0) == Crew(Crowd(n - 1), 0) + {n - 1};
    }
  }

  /** One queue of n drainers, the first two at pc0 and pc1. */
  ghost function Scene(n: nat, pc0: Pc, pc1: Pc, ts: seq<Task>, x: Queue): State
    requires n >= 2
  {
    State([x], Crowd(n)[0 := Drainer(0, pc0)][1 := Drainer(0, pc1)], ts, |ts|, [], 0)
  }

  ghost function Fresh(n: nat): Queue {
    Queue(n, [], false, Unclaimed, 0, n, false, [], [], [])
  }

  const EARLY := Job(0, false)
  const BARRIER := Job(1, true)

  lemma {:induction false} SubmitBoth(n: nat, s0: State, s1: State, s2: State)
    requires n >= 2 && s0 == Scene(n, Recv, Recv, [], Fresh(n)) && s1 == Scene(n, Recv, Recv, [Task(0, Submitting, 0)], Fresh(n))
    requires s2 == Scene(n, Recv, Recv, [Task(0, Submitting, 0), Task(0, Submitting, 0)], Fresh(n))
    ensures Init(s0) && Submit(s0, 0, s1) && Submit(s1, 0, s2)
  {
    CrowdCrew(n);
    assert s0.ds == Crowd(n);
    assert s1.ts + [Task(0, Submitting, 0)] == s2.ts;
  }

  lemma {:induction false} AcceptBoth(n: nat, s2: State, s3: State, s4: State)
    requires n >= 2 && s2 == Scene(n, Recv, Recv, [Task(0, Submitting, 0), Task(0, Submitting, 0)], Fresh(n))
    requires s3 == Scene(n, Recv, Recv, [Task(0, Queued, 0), Task(0, Submitting, 0)], Fresh(n).(buf := [EARLY], accepted := [EARLY]))
    requires s4 == Scene(n, Recv, Recv, [Task(0, Queued, 0), Task(0, Queued, 0)], Fresh(n).(buf := [EARLY, BARRIER], accepted := [EARLY, BARRIER]))
    ensures Accept(s2, 0, false, s3) && Accept(s3, 1, true, s4)
  {
    assert s2.ts[0 := Task(0, Queued, 0)] == s3.ts && s3.ts[1 := Task(0, Queued, 0)] == s4.ts;
    assert s2.qs[0].buf + [EARLY] == [EARLY] && [EARLY] + [BARRIER] == [EARLY, BARRIER];
    assert s2.qs[0 := s3.qs[0]] == s3.qs && s3.qs[0 := s4.qs[0]] == s4.qs;
  }

  lemma {:induction false} ReceiveBoth(n: nat, s4: State, s5: State, s6: State)
    requires n >= 2
    requires s4 == Scene(n, Recv, Recv, [Task(0, Queued, 0), Task(0, Queued, 0)], Fresh(n).(buf := [EARLY, BARRIER], accepted := [EARLY, BARRIER]))
    requires s5 == Scene(n, Want(EARLY), Recv, [Task(0, Taken(0), 0), Task(0, Queued, 0)],
                         Fresh(n).(buf := [BARRIER], accepted := [EARLY, BARRIER], dequeued := [EARLY]))
    requires s6 == Scene(n, Want(EARLY), Want(BARRIER), [Task(0, Taken(0), 0), Task(0, Taken(1), 0)],
                         Fresh(n).(accepted := [EARLY, BARRIER], dequeued := [EARLY, BARRIER]))
    ensures Receive(s4, 0, s5) && Receive(s5, 1, s6)
  {
    assert s4.ds[0 := s4.ds[0].(pc := Want(EARLY))] == s5.ds && s5.ds[1 := s5.ds[1].(pc := Want(BARRIER))] == s6.ds;
    assert s4.ts[0 := Task(0, Taken(0), 0)] == s5.ts && s5.ts[1 := Task(0, Taken(1), 0)] == s6.ts;
    assert s4.qs[0].dequeued + [EARLY] == [EARLY];
    assert [EARLY, BARRIER][1..] == [BARRIER] && [BARRIER][1..] == [] && [EARLY] + [BARRIER] == [EARLY, BARRIER];
    assert s4.qs[0 := s5.qs[0]] == s5.qs && s5.qs[0 := s6.qs[0]] == s6.qs;
  }

  lemma {:induction false} BarrierEnters(n: nat, s6: State, s7: State)
    requires n >= 2
    requires s6 == Scene(n, Want(EARLY), Want(BARRIER), [Task(0, Taken(0), 0), Task(0, Taken(1), 0)],
                         Fresh(n).(accepted := [EARLY, BARRIER], dequeued := [EARLY, BARRIER]))
    requires s7 == Scene(n, Want(EARLY), Running(BARRIER), [Task(0, Taken(0), 0), Task(0, Taken(1), 1)],
                         Fresh(n).(claim := By(1), accepted := [EARLY, BARRIER], dequeued := [EARLY, BARRIER], started := [BARRIER]))
    ensures Enter(s6, 1, s7)
  {
    assert s6.ds[1 := s6.ds[1].(pc := Running(BARRIER))] == s7.ds;
    assert s6.ts[1 := Task(0, Taken(1), 1)] == s7.ts && s6.qs[0].started + [BARRIER] == [BARRIER];
    assert s6.qs[0 := s7.qs[0]] == s7.qs;
  }

  /** With two drainers or more there is a run in which a barrier begins before a task accepted ahead of it. */
  lemma {:induction false} BarrierOvertakes(n: nat) returns (t: seq<State>, a: seq<Step>)
    requires n >= 2
    ensures Run(t, a) && |t| == 8 && |t[7].qs| == 1 && t[7].qs[0].conc == n
    ensures t[7].qs[0].accepted == [EARLY, BARRIER] && t[7].qs[0].started == [BARRIER]
    ensures !InAcceptedOrder(t[7].qs[0])
  {
    var s0, s1 := Scene(n, Recv, Recv, [], Fresh(n)), Scene(n, Recv, Recv, [Task(0, Submitting, 0)], Fresh(n));
    var s2 := Scene(n, Recv, Recv, [Task(0, Submitting, 0), Task(0, Submitting, 0)], Fresh(n));
    var s3 := Scene(n, Recv, Recv, [Task(0, Queued, 0), Task(0, Submitting, 0)], Fresh(n).(buf := [EARLY], accepted := [EARLY]));
    var s4 := Scene(n, Recv, Recv, [Task(0, Queued, 0), Task(0, Queued, 0)], Fresh(n).(buf := [EARLY, BARRIER], accepted := [EARLY, BARRIER]));
    var s5 := Scene(n, Want(EARLY), Recv, [Task(0, Taken(0), 0), Task(0, Queued, 0)],
                    Fresh(n).(buf := [BARRIER], accepted := [EARLY, BARRIER], dequeued := [EARLY]));
    var s6 := Scene(n, Want(EARLY), Want(BARRIER), [Task(0, Taken(0), 0), Task(0, Taken(1), 0)],
                    Fresh(n).(accepted := [EARLY, BARRIER], dequeued := [EARLY, BARRIER]));
    var s7 := Scene(n, Want(EARLY), Running(BARRIER), [Task(0, Taken(0), 0), Task(0, Taken(1), 1)],
                    Fresh(n).(claim := By(1), accepted := [EARLY, BARRIER], dequeued := [EARLY, BARRIER], started := [BARRIER]));
    SubmitBoth(n, s0, s1, s2);
    AcceptBoth(n, s2, s3, s4);
    ReceiveBoth(n, s4, s5, s6);
    BarrierEnters(n, s6, s7);
    t := [s0, s1, s2, s3, s4, s5, s6, s7];
    a := [DoSubmit(0), DoSubmit(0), DoAccept(0, false), DoAccept(1, true), DoReceive(0), DoReceive(1), DoEnter(1)];
    var x := t[7].qs[0];
    assert x.accepted[1] in x.started && x.accepted[0] !in x.started;
  }

  /** State i of a run, with a queue q of concurrency n. */
  ghost predicate Reaches(t: seq<State>, a: seq<Step>, i: nat, q: nat, n: nat) {
    Run(t, a) && i < |t| && q < |t[i].qs| && t[i].qs[q].conc == n
  }

  /** Every run of a queue with concurrency n keeps accepted order around barriers. */
  ghost predicate AlwaysInOrder(n: nat) {
    forall t: seq<State>, a: seq<Step>, i: nat, q: nat :: Reaches(t, a, i, q, n) ==> InAcceptedOrder(t[i].qs[q])
  }

  /** Barriers are ordered by acceptance in every run if and only if the queue has one drainer. */
  lemma {:induction false} AcceptedOrderIff(n: nat)
    requires n > 0
    ensures AlwaysInOrder(n) <==> n == 1
  {
    if n == 1 {
      forall t: seq<State>, a: seq<Step>, i: nat, q: nat | Reaches(t, a, i, q, n)
        ensures InAcceptedOrder(t[i].qs[q])
      {
        SerialInOrder(t, a, i, q);
      }
    } else {
      var t, a := BarrierOvertakes(n);
      assert Reaches(t, a, 7, 0, n);
    }
  }
}
