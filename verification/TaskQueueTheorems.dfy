/** What task queues guarantee in every run. */
module TaskQueueTheorems {
  import opened TaskQueues
  import opened TaskQueueInvariant

  /**
   `s_queue_work` is the number of tasks that are being submitted, sit in a queue's
   channel or are with a drainer; the last two are exactly what the channels and the
   drainers hold.
   */
  lemma {:induction false} WorkAccounting(t: seq<State>, a: seq<Step>, i: nat, k: nat)
    requires Run(t, a) && i < |t| && k < |t[i].ts|
    ensures t[i].work == |OpenTasks(t[i].ts)|
    ensures t[i].ts[k].q < |t[i].qs|
    ensures t[i].ts[k].phase == Queued <==> Ids(t[i].qs[t[i].ts[k].q].buf, k)
    ensures t[i].ts[k].phase.Taken? <==> exists d: nat :: d < |t[i].ds| && HasJob(t[i].ds[d].pc) && t[i].ds[d].pc.job.id == k
  {
    RunInv(t, a, i);
    var s := t[i];
    assert TaskOk(s, k, s.ts[k]);
    if Ids(s.qs[s.ts[k].q].buf, k) {
      assert BufferOk(s, s.ts[k].q, s.qs[s.ts[k].q]);
    }
    if d: nat :| d < |s.ds| && HasJob(s.ds[d].pc) && s.ds[d].pc.job.id == k {
      assert JobOk(s, d, s.ds[d]);
    }
  }

  /**
   While the body of a barrier runs, no other body of its queue runs, and every task that was
   active when the barrier claimed the queue is over and no longer counted.
   */
  lemma {:induction false} BarrierRunsAlone(t: seq<State>, a: seq<Step>, i: nat, d: nat, e: nat)
    requires Run(t, a) && i < |t| && d < |t[i].ds| && e < |t[i].ds| && t[i].ds[d].q == t[i].ds[e].q
    requires t[i].ds[d].pc.Running? && t[i].ds[d].pc.job.barrier && InBody(t[i].ds[e].pc)
    ensures d == e
  {
    RunInv(t, a, i);
    Alone(t[i], d, e);
  }

  lemma {:induction false} Alone(s: State, d: nat, e: nat)
    requires Inv(s) && d < |s.ds| && e < |s.ds| && s.ds[d].q == s.ds[e].q
    requires s.ds[d].pc.Running? && s.ds[d].pc.job.barrier && InBody(s.ds[e].pc)
    ensures d == e
  {
    assert BarrierOk(s, d, s.ds[d]) && BarrierOk(s, e, s.ds[e]) && CrewOk(s.ds, s.ds[d].q, s.qs[s.ds[d].q]);
    NoneActive(s.ds, s.ds[d].q, e);
  }

  lemma {:induction false} NoneActive(ds: seq<Drainer>, q: nat, e: nat)
    requires |ActiveSet(ds, q)| == 0 && e < |ds| && ds[e].q == q
    ensures !Counted(ds[e].pc)
  {
    assert e !in ActiveSet(ds, q);
  }

  lemma {:induction false} NoneRemaining(ds: seq<Drainer>, q: nat, e: nat)
    requires |Remaining(ds, q)| == 0 && e < |ds| && ds[e].q == q
    ensures ds[e].pc == Gone
  {
    assert e !in Remaining(ds, q);
  }

  /** From the claim of a barrier to its end, no body of the queue begins but the barrier's own. */
  lemma {:induction false} NothingBeginsUnderBarrier(t: seq<State>, a: seq<Step>, i: nat, q: nat, d: nat, e: nat)
    requires Run(t, a) && i < |a| && q < |t[i].qs| && t[i].qs[q].claim == By(d)
    requires e < |t[i].ds| == |t[i + 1].ds| && t[i].ds[e].q == q
    requires !t[i].ds[e].pc.Running? && t[i + 1].ds[e].pc.Running?
    ensures e == d && t[i].ds[d].pc.job.barrier && t[i].qs[q].active == 0
  {
    RunInv(t, a, i);
    assert Next(t[i], a[i], t[i + 1]);
    BeginsUnderClaim(t[i], a[i], t[i + 1], q, d, e);
  }

  lemma {:induction false} BeginsUnderClaim(s: State, a: Step, s': State, q: nat, d: nat, e: nat)
    requires Inv(s) && Next(s, a, s') && q < |s.qs| && s.qs[q].claim == By(d)
    requires e < |s.ds| == |s'.ds| && s.ds[e].q == q && !s.ds[e].pc.Running? && s'.ds[e].pc.Running?
    ensures e == d && s.ds[d].pc.job.barrier && s.qs[q].active == 0
  {
    WhoBegins(s, a, s', e);
    assert d < |s.ds| && BarrierOk(s, e, s.ds[e]) && BarrierOk(s, d, s.ds[d]) && CrewOk(s.ds, q, s.qs[q]);
  }

  lemma {:induction false} WhoBegins(s: State, a: Step, s': State, e: nat)
    requires Next(s, a, s') && e < |s.ds| == |s'.ds| && !s.ds[e].pc.Running? && s'.ds[e].pc.Running?
    ensures a == DoStartSerial(e) || a == DoEnter(e) || a == DoEnterClaimed(e)
  {
  }

  /** No lost barrier wake: a sleeping drainer has a runner or an awakened drainer of its queue ahead of it. */
  lemma {:induction false} SleeperHasWaker(t: seq<State>, a: seq<Step>, i: nat, d: nat) returns (e: nat)
    requires Run(t, a) && i < |t| && d < |t[i].ds| && t[i].ds[d].pc.Sleep? && !t[i].ds[d].pc.woken
    ensures e < |t[i].ds| && e != d && t[i].ds[e].q == t[i].ds[d].q
    ensures InBody(t[i].ds[e].pc) || (t[i].ds[e].pc.Sleep? && t[i].ds[e].pc.claimed && t[i].ds[e].pc.woken)
  {
    RunInv(t, a, i);
    var s := t[i];
    var q := s.ds[d].q;
    assert BarrierOk(s, d, s.ds[d]) && CrewOk(s.ds, q, s.qs[q]);
    if !s.ds[d].pc.claimed {
      e := s.qs[q].claim.d;
      assert BarrierOk(s, e, s.ds[e]);
      if InBody(s.ds[e].pc) || s.ds[e].pc.woken {
        return;
      }
    }
    assert ActiveSet(s.ds, q) != {};
    e :| e in ActiveSet(s.ds, q);
  }

  /** An accepted task runs at most once, and exactly once before queue_destroy frees its queue. */
  lemma {:induction false} RunsOnceBeforeFree(t: seq<State>, a: seq<Step>, i: nat, q: nat, k: nat)
    requires Run(t, a) && i < |t| && q < |t[i].qs| && k < |t[i].qs[q].accepted|
    ensures t[i].qs[q].accepted[k].id < |t[i].ts|
    ensures var x := t[i].ts[t[i].qs[q].accepted[k].id];
      && x.runs <= 1 && (x.phase == Finished ==> x.runs == 1)
      && (t[i].qs[q].freed ==> x.phase == Finished && x.runs == 1)
  {
    RunInv(t, a, i);
    DrainedMeansFinished(t[i], q, k);
  }

  lemma {:induction false} DrainedMeansFinished(s: State, q: nat, k: nat)
    requires Inv(s) && q < |s.qs| && k < |s.qs[q].accepted|
    ensures s.qs[q].accepted[k].id < |s.ts|
    ensures var x := s.ts[s.qs[q].accepted[k].id];
      x.runs <= 1 && (x.phase == Finished ==> x.runs == 1) && (s.qs[q].drain == 0 ==> x.phase == Finished)
  {
    assert BufferOk(s, q, s.qs[q]) && CrewOk(s.ds, q, s.qs[q]) && AcceptedOk(s, q, s.qs[q], s.qs[q].accepted[k]);
    var u := s.qs[q].accepted[k].id;
    assert TaskOk(s, u, s.ts[u]);
    if s.ts[u].phase.Taken? {
      assert JobOk(s, s.ts[u].phase.d, s.ds[s.ts[u].phase.d]);
    }
    if s.qs[q].drain == 0 {
      if s.ts[u].phase.Taken? {
        NoneRemaining(s.ds, q, s.ts[u].phase.d);
      }
      var c :| c in Crew(s.ds, q);
      assert BarrierOk(s, c, s.ds[c]);
      NoneRemaining(s.ds, q, c);
    }
  }

  /** With concurrency 1 tasks begin in the order they were accepted, one after the other. */
  lemma {:induction false} SerialOrder(t: seq<State>, a: seq<Step>, i: nat, q: nat, d: nat, e: nat)
    requires Run(t, a) && i < |t| && q < |t[i].qs| && t[i].qs[q].conc == 1
    requires d < |t[i].ds| && e < |t[i].ds| && t[i].ds[d].q == q == t[i].ds[e].q
    ensures d == e
    ensures t[i].qs[q].started <= t[i].qs[q].accepted
    ensures t[i].qs[q].accepted == t[i].qs[q].started + (if t[i].ds[d].pc.Want? then [t[i].ds[d].pc.job] else []) + t[i].qs[q].buf
  {
    RunInv(t, a, i);
    var s := t[i];
    assert SerialOk(s, d, s.ds[d]) && CrewOk(s.ds, q, s.qs[q]) && BufferOk(s, q, s.qs[q]);
    OnlyDrainer(s.ds, q, d, e);
  }

  /** With any concurrency, tasks leave the channel in the order they were accepted. */
  lemma {:induction false} DequeuedInOrder(t: seq<State>, a: seq<Step>, i: nat, q: nat)
    requires Run(t, a) && i < |t| && q < |t[i].qs|
    ensures t[i].qs[q].accepted == t[i].qs[q].dequeued + t[i].qs[q].buf && Distinct(t[i].qs[q].accepted)
  {
    RunInv(t, a, i);
    assert BufferOk(t[i], q, t[i].qs[q]);
  }

  /**
   One worker and no foreign threads: nothing happens between the reads of s_run_complete,
   so when both counters read zero every non-daemon coroutine is done, no submission is in
   progress and every accepted task has run, once.
   */
  lemma {:induction false} CompleteMeansFinished(t: seq<State>, a: seq<Step>, i: nat)
    requires Run(t, a) && i < |t| && t[i].live == 0 && t[i].work == 0
    ensures forall c: nat :: c < |t[i].crs| ==> !t[i].crs[c]
    ensures forall k: nat :: k < |t[i].ts| ==> t[i].ts[k].phase == Rejected || (t[i].ts[k].phase == Finished && t[i].ts[k].runs == 1)
  {
    RunInv(t, a, i);
    var s := t[i];
    forall c: nat | c < |s.crs|
      ensures !s.crs[c]
    {
      assert c !in Alive(s.crs);
    }
    forall k: nat | k < |s.ts|
      ensures s.ts[k].phase == Rejected || (s.ts[k].phase == Finished && s.ts[k].runs == 1)
    {
      assert k !in OpenTasks(s.ts) && TaskOk(s, k, s.ts[k]);
    }
  }

  /** The counters of the sections never underflow, so the guards of these steps restrict nothing. */
  lemma {:induction false} NoUnderflow(t: seq<State>, a: seq<Step>, i: nat, d: nat)
    requires Run(t, a) && i < |t| && d < |t[i].ds|
    ensures t[i].ds[d].q < |t[i].qs|
    ensures t[i].ds[d].pc.Ending? && !t[i].ds[d].pc.job.barrier ==> t[i].qs[t[i].ds[d].q].active > 0
    ensures t[i].ds[d].pc == Exiting ==> t[i].qs[t[i].ds[d].q].drain > 0
    ensures HasJob(t[i].ds[d].pc) ==> t[i].ds[d].pc.job.id < |t[i].ts| && t[i].work > 0
  {
    RunInv(t, a, i);
    var s := t[i];
    var q := s.ds[d].q;
    assert BarrierOk(s, d, s.ds[d]) && JobOk(s, d, s.ds[d]) && CrewOk(s.ds, q, s.qs[q]);
    assert Counted(s.ds[d].pc) ==> d in ActiveSet(s.ds, q);
    assert s.ds[d].pc != Gone ==> d in Remaining(s.ds, q);
    if HasJob(s.ds[d].pc) {
      assert s.ds[d].pc.job.id in OpenTasks(s.ts);
    }
  }
}
