/**
 Task queues: submissions into a buffered channel, `concurrency` drainers, barriers,
 destroy, and the counters that keep `suspenders_run` alive.

 A critical section of the queue's mutex is one step; a condition wait releases the
 mutex and sleeps at once and may return for no reason. The channel is the FIFO of its
 accepted values. Any number of queues share the counters.
 */
module TaskQueues {
  const QUEUE_CAP: nat := 256

  /** The copy of a task that travels through the channel. */
  datatype Job = Job(id: nat, barrier: bool)

  /** `barrier_pending`, with the drainer that set it. */
  datatype Claim = Unclaimed | By(d: nat)

  /** `accepted`, `dequeued` and `started` are history: no step reads them. */
  datatype Queue = Queue(
    conc: nat, buf: seq<Job>, closed: bool, claim: Claim, active: nat, drain: nat, freed: bool,
    accepted: seq<Job>, dequeued: seq<Job>, started: seq<Job>)

  datatype Phase = Submitting | Refused | Rejected | Queued | Taken(d: nat) | Finished

  datatype Task = Task(q: nat, phase: Phase, runs: nat)

  datatype Pc =
    | Recv
    | Want(job: Job)                                // dequeued, about to take the queue's mutex
    | Sleep(job: Job, claimed: bool, woken: bool)   // in cond_wait; claimed: it set barrier_pending
    | Running(job: Job)
    | Ending(job: Job)                              // body returned, about to take the mutex
    | Ended(job: Job)                               // about to drop its count of s_queue_work
    | Exiting
    | Gone

  datatype Drainer = Drainer(q: nat, pc: Pc)

  datatype State = State(qs: seq<Queue>, ds: seq<Drainer>, ts: seq<Task>, work: int, crs: seq<bool>, live: int)

  // ---------------------------------------------------------------- steps

  function SetQ(s: State, q: nat, x: Queue): State
    requires q < |s.qs|
  {
    s.(qs := s.qs[q := x])
  }

  function SetD(s: State, d: nat, pc: Pc): State
    requires d < |s.ds|
  {
    s.(ds := s.ds[d := s.ds[d].(pc := pc)])
  }

  function SetT(s: State, t: nat, x: Task): State
    requires t < |s.ts|
  {
    s.(ts := s.ts[t := x])
  }

  /** s_queue_submit counts a submission before it sends it. */
  ghost predicate Submit(s: State, q: nat, s': State) {
    q < |s.qs| && s' == s.(ts := s.ts + [Task(q, Submitting, 0)], work := s.work + 1)
  }

  /** The channel takes the value; a barrier on a queue with one drainer is an ordinary task. */
  ghost predicate Accept(s: State, t: nat, barrier: bool, s': State) {
    && t < |s.ts| && s.ts[t].phase == Submitting && s.ts[t].q < |s.qs|
    && var q := s.ts[t].q;
    && var x := s.qs[q];
    && var j := Job(t, barrier && x.conc > 1);
    && !x.closed && |x.buf| < QUEUE_CAP
    && s' == SetQ(SetT(s, t, s.ts[t].(phase := Queued)), q, x.(buf := x.buf + [j], accepted := x.accepted + [j]))
  }

  /** The send fails: closed, full, canceled or timed out. */
  ghost predicate Refuse(s: State, t: nat, s': State) {
    && t < |s.ts| && s.ts[t].phase == Submitting
    && s' == SetT(s, t, s.ts[t].(phase := Refused))
  }

  ghost predicate RefuseEnd(s: State, t: nat, s': State) {
    && t < |s.ts| && s.ts[t].phase == Refused
    && s' == SetT(s, t, s.ts[t].(phase := Rejected)).(work := s.work - 1)
  }

  ghost predicate Receive(s: State, d: nat, s': State) {
    && d < |s.ds| && s.ds[d].pc == Recv && s.ds[d].q < |s.qs|
    && var x := s.qs[s.ds[d].q];
    && x.buf != [] && x.buf[0].id < |s.ts|
    && var j := x.buf[0];
    && s' == SetQ(SetT(SetD(s, d, Want(j)), j.id, s.ts[j.id].(phase := Taken(d))), s.ds[d].q,
                  x.(buf := x.buf[1..], dequeued := x.dequeued + [j]))
  }

  ghost predicate ReceiveClosed(s: State, d: nat, s': State) {
    && d < |s.ds| && s.ds[d].pc == Recv && s.ds[d].q < |s.qs|
    && s.qs[s.ds[d].q].closed && s.qs[s.ds[d].q].buf == []
    && s' == SetD(s, d, Exiting)
  }

  ghost predicate Leave(s: State, d: nat, s': State) {
    && d < |s.ds| && s.ds[d].pc == Exiting && s.ds[d].q < |s.qs| && s.qs[s.ds[d].q].drain > 0
    && var x := s.qs[s.ds[d].q];
    && s' == SetQ(SetD(s, d, Gone), s.ds[d].q, x.(drain := x.drain - 1))
  }

  /** The body of the drainer's task begins, with the queue's new bookkeeping. */
  function Begin(s: State, d: nat, j: Job, x: Queue): State
    requires d < |s.ds| && s.ds[d].q < |s.qs| && j.id < |s.ts|
  {
    SetQ(SetT(SetD(s, d, Running(j)), j.id, s.ts[j.id].(runs := s.ts[j.id].runs + 1)), s.ds[d].q,
         x.(started := x.started + [j]))
  }

  ghost predicate StartSerial(s: State, d: nat, s': State) {
    && d < |s.ds| && s.ds[d].pc.Want? && s.ds[d].q < |s.qs| && s.qs[s.ds[d].q].conc <= 1
    && s.ds[d].pc.job.id < |s.ts|
    && s' == Begin(s, d, s.ds[d].pc.job, s.qs[s.ds[d].q])
  }

  /** First loop of the section: wait while a barrier is pending, then claim or count. */
  ghost predicate Enter(s: State, d: nat, s': State) {
    && d < |s.ds| && s.ds[d].q < |s.qs| && s.qs[s.ds[d].q].conc > 1
    && (s.ds[d].pc.Want? || (s.ds[d].pc.Sleep? && !s.ds[d].pc.claimed && s.ds[d].pc.woken))
    && var j := s.ds[d].pc.job;
    && var x := s.qs[s.ds[d].q];
    && j.id < |s.ts|
    && s' == if x.claim != Unclaimed then SetD(s, d, Sleep(j, false, false))
             else if !j.barrier then Begin(s, d, j, x.(active := x.active + 1))
             else if x.active > 0 then SetQ(SetD(s, d, Sleep(j, true, false)), s.ds[d].q, x.(claim := By(d)))
             else Begin(s, d, j, x.(claim := By(d)))
  }

  /** Second loop: the claiming barrier waits until nothing is active. */
  ghost predicate EnterClaimed(s: State, d: nat, s': State) {
    && d < |s.ds| && s.ds[d].q < |s.qs|
    && s.ds[d].pc.Sleep? && s.ds[d].pc.claimed && s.ds[d].pc.woken
    && var j := s.ds[d].pc.job;
    && var x := s.qs[s.ds[d].q];
    && j.id < |s.ts|
    && s' == if x.active > 0 then SetD(s, d, Sleep(j, true, false)) else Begin(s, d, j, x)
  }

  /** A cancel ends a drainer's condition wait early. */
  ghost predicate Stray(s: State, d: nat, s': State) {
    && d < |s.ds| && s.ds[d].pc.Sleep?
    && s' == SetD(s, d, s.ds[d].pc.(woken := true))
  }

  ghost predicate BodyEnd(s: State, d: nat, s': State) {
    && d < |s.ds| && s.ds[d].pc.Running? && s.ds[d].q < |s.qs|
    && s' == SetD(s, d, if s.qs[s.ds[d].q].conc > 1 then Ending(s.ds[d].pc.job) else Ended(s.ds[d].pc.job))
  }

  /** cond_broadcast on queue q. */
  function Woken(ds: seq<Drainer>, q: nat): (r: seq<Drainer>)
    ensures |r| == |ds|
    ensures forall d: nat :: d < |ds| ==>
              r[d] == if ds[d].q == q && ds[d].pc.Sleep? then ds[d].(pc := ds[d].pc.(woken := true)) else ds[d]
  {
    if ds == [] then [] else
      var l := ds[|ds| - 1];
      Woken(ds[..|ds| - 1], q) + [if l.q == q && l.pc.Sleep? then l.(pc := l.pc.(woken := true)) else l]
  }

  ghost predicate EndSection(s: State, d: nat, s': State) {
    && d < |s.ds| && s.ds[d].pc.Ending? && s.ds[d].q < |s.qs|
    && var j := s.ds[d].pc.job;
    && var q := s.ds[d].q;
    && var x := s.qs[q];
    && var s1 := SetD(s, d, Ended(j));
    && (!j.barrier ==> x.active > 0)
    && s' == if j.barrier then SetQ(s1.(ds := Woken(s1.ds, q)), q, x.(claim := Unclaimed))
             else if x.active == 1 then SetQ(s1.(ds := Woken(s1.ds, q)), q, x.(active := 0))
             else SetQ(s1, q, x.(active := x.active - 1))
  }

  ghost predicate WorkEnd(s: State, d: nat, s': State) {
    && d < |s.ds| && s.ds[d].pc.Ended? && s.ds[d].pc.job.id < |s.ts|
    && var t := s.ds[d].pc.job.id;
    && s' == SetT(SetD(s, d, Recv), t, s.ts[t].(phase := Finished)).(work := s.work - 1)
  }

  ghost predicate Close(s: State, q: nat, s': State) {
    q < |s.qs| && s' == SetQ(s, q, s.qs[q].(closed := true))
  }

  /** queue_destroy has seen the drain wait group clear. */
  ghost predicate Free(s: State, q: nat, s': State) {
    q < |s.qs| && s.qs[q].closed && s.qs[q].drain == 0 && s' == SetQ(s, q, s.qs[q].(freed := true))
  }

  /** A non-daemon coroutine is spawned, or exits. */
  ghost predicate Spawn(s: State, s': State) {
    s' == s.(crs := s.crs + [true], live := s.live + 1)
  }

  ghost predicate Exit(s: State, c: nat, s': State) {
    c < |s.crs| && s.crs[c] && s' == s.(crs := s.crs[c := false], live := s.live - 1)
  }

  datatype Step =
    | DoSubmit(q: nat) | DoAccept(t: nat, barrier: bool) | DoRefuse(t: nat) | DoRefuseEnd(t: nat)
    | DoReceive(d: nat) | DoReceiveClosed(d: nat) | DoLeave(d: nat) | DoStartSerial(d: nat)
    | DoEnter(d: nat) | DoEnterClaimed(d: nat) | DoStray(d: nat) | DoBodyEnd(d: nat) | DoEndSection(d: nat)
    | DoWorkEnd(d: nat) | DoClose(q: nat) | DoFree(q: nat) | DoSpawn | DoExit(c: nat)

  ghost predicate Next(s: State, a: Step, s': State) {
    match a
    case DoSubmit(q) => Submit(s, q, s')
    case DoAccept(t, barrier) => Accept(s, t, barrier, s')
    case DoRefuse(t) => Refuse(s, t, s')
    case DoRefuseEnd(t) => RefuseEnd(s, t, s')
    case DoReceive(d) => Receive(s, d, s')
    case DoReceiveClosed(d) => ReceiveClosed(s, d, s')
    case DoLeave(d) => Leave(s, d, s')
    case DoStartSerial(d) => StartSerial(s, d, s')
    case DoEnter(d) => Enter(s, d, s')
    case DoEnterClaimed(d) => EnterClaimed(s, d, s')
    case DoStray(d) => Stray(s, d, s')
    case DoBodyEnd(d) => BodyEnd(s, d, s')
    case DoEndSection(d) => EndSection(s, d, s')
    case DoWorkEnd(d) => WorkEnd(s, d, s')
    case DoClose(q) => Close(s, q, s')
    case DoFree(q) => Free(s, q, s')
    case DoSpawn => Spawn(s, s')
    case DoExit(c) => Exit(s, c, s')
  }

  /** Every queue has as many drainers as its concurrency, at least one. */
  ghost predicate Init(s: State) {
    && s.ts == [] && s.work == 0 && s.crs == [] && s.live == 0
    && (forall d: nat :: d < |s.ds| ==> s.ds[d].pc == Recv && s.ds[d].q < |s.qs|)
    && forall q: nat :: q < |s.qs| ==>
         && s.qs[q].conc == |Crew(s.ds, q)| == s.qs[q].drain && s.qs[q].conc > 0
         && s.qs[q] == Queue(s.qs[q].conc, [], false, Unclaimed, 0, s.qs[q].drain, false, [], [], [])
  }

  ghost function Crew(ds: seq<Drainer>, q: nat): set<nat> {
    set d: nat | d < |ds| && ds[d].q == q
  }

  ghost predicate Run(t: seq<State>, a: seq<Step>) {
    && |t| == |a| + 1 && Init(t[0])
    && forall i: nat :: i < |a| ==> Next(t[i], a[i], t[i + 1])
  }
}
