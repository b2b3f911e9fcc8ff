/** The invariant of task queues, and that every step keeps it. */
module TaskQueueInvariant {
  import opened TaskQueues

  // ---------------------------------------------------------------- the invariant

  predicate HasJob(pc: Pc) {
    pc.Want? || pc.Sleep? || pc.Running? || pc.Ending? || pc.Ended?
  }

  /** The body of the job is under way, or over but still counted in its queue. */
  predicate InBody(pc: Pc) {
    pc.Running? || pc.Ending?
  }

  /** Counted in `active`. */
  predicate Counted(pc: Pc) {
    InBody(pc) && !pc.job.barrier
  }

  predicate Claims(pc: Pc) {
    (pc.Sleep? && pc.claimed) || (InBody(pc) && pc.job.barrier)
  }

  predicate Open(p: Phase) {
    p == Submitting || p == Refused || p == Queued || p.Taken?
  }

  predicate WasAccepted(p: Phase) {
    p == Queued || p.Taken? || p == Finished
  }

  ghost function OpenTasks(ts: seq<Task>): set<nat> {
    set t: nat | t < |ts| && Open(ts[t].phase)
  }

  ghost function Alive(crs: seq<bool>): set<nat> {
    set c: nat | c < |crs| && crs[c]
  }

  ghost function Remaining(ds: seq<Drainer>, q: nat): set<nat> {
    set d: nat | d < |ds| && ds[d].q == q && ds[d].pc != Gone
  }

  ghost function ActiveSet(ds: seq<Drainer>, q: nat): set<nat> {
    set d: nat | d < |ds| && ds[d].q == q && Counted(ds[d].pc)
  }

  ghost predicate CrewOk(ds: seq<Drainer>, q: nat, x: Queue) {
    && x.conc == |Crew(ds, q)| && x.conc > 0
    && x.drain == |Remaining(ds, q)| && (x.freed ==> x.drain == 0)
    && (x.conc > 1 ==> x.active == |ActiveSet(ds, q)|)
  }

  ghost predicate Counts(s: State) {
    && s.work == |OpenTasks(s.ts)| && s.live == |Alive(s.crs)|
    && forall q: nat :: q < |s.qs| ==> CrewOk(s.ds, q, s.qs[q])
  }

  /** A drainer's job is a taken task of its queue; it has begun exactly once its pc says so. */
  ghost predicate JobOk(s: State, d: nat, x: Drainer) {
    HasJob(x.pc) ==>
      x.pc.job.id < |s.ts| && s.ts[x.pc.job.id] == Task(x.q, Taken(d), if x.pc.Want? || x.pc.Sleep? then 0 else 1)
  }

  ghost predicate TaskOk(s: State, t: nat, x: Task) {
    && x.q < |s.qs|
    && (!x.phase.Taken? ==> x.runs == if x.phase == Finished then 1 else 0)
    && (x.phase.Taken? ==> x.phase.d < |s.ds| && HasJob(s.ds[x.phase.d].pc) && s.ds[x.phase.d].pc.job.id == t)
  }

  ghost predicate Held(s: State) {
    && (forall d: nat :: d < |s.ds| ==> s.ds[d].q < |s.qs| && JobOk(s, d, s.ds[d]))
    && forall t: nat :: t < |s.ts| ==> TaskOk(s, t, s.ts[t])
  }

  ghost predicate Ids(l: seq<Job>, t: nat) {
    exists k: nat :: k < |l| && l[k].id == t
  }

  ghost predicate Distinct(l: seq<Job>) {
    forall i, j :: 0 <= i < j < |l| ==> l[i].id != l[j].id
  }

  ghost predicate AcceptedOk(s: State, q: nat, x: Queue, j: Job) {
    j.id < |s.ts| && s.ts[j.id].q == q && WasAccepted(s.ts[j.id].phase) && (j.barrier ==> x.conc > 1)
  }

  ghost predicate BufferOk(s: State, q: nat, x: Queue) {
    && x.accepted == x.dequeued + x.buf && Distinct(x.accepted) && |x.buf| <= QUEUE_CAP
    && (forall k: nat :: k < |x.accepted| ==> AcceptedOk(s, q, x, x.accepted[k]))
    && forall k: nat :: k < |x.buf| ==> x.buf[k].id < |s.ts| && s.ts[x.buf[k].id].phase == Queued
  }

  ghost predicate Buffers(s: State) {
    && (forall q: nat :: q < |s.qs| ==> BufferOk(s, q, s.qs[q]))
    && (forall t: nat :: t < |s.ts| && s.ts[t].phase == Queued ==> s.ts[t].q < |s.qs| && Ids(s.qs[s.ts[t].q].buf, t))
    && forall t: nat :: t < |s.ts| && WasAccepted(s.ts[t].phase) ==> s.ts[t].q < |s.qs| && Ids(s.qs[s.ts[t].q].accepted, t)
  }

  /** What the pc of a drainer says about its queue. */
  ghost predicate BarrierOk(s: State, d: nat, x: Drainer) {
    && x.q < |s.qs|
    && var y := s.qs[x.q];
    && (y.conc <= 1 ==> !x.pc.Sleep? && !x.pc.Ending? && (HasJob(x.pc) ==> !x.pc.job.barrier))
    && (Claims(x.pc) ==> y.claim == By(d) && x.pc.job.barrier)
    && (InBody(x.pc) && x.pc.job.barrier ==> y.active == 0)
    && (x.pc.Sleep? && !x.pc.woken ==> if x.pc.claimed then y.active > 0 else y.claim != Unclaimed)
    && (x.pc == Exiting || x.pc == Gone ==> y.closed && y.buf == [])
  }

  ghost predicate Barriers(s: State) {
    && (forall d: nat :: d < |s.ds| ==> BarrierOk(s, d, s.ds[d]))
    && forall q: nat :: q < |s.qs| && s.qs[q].claim.By? ==>
         (var d := s.qs[q].claim.d; d < |s.ds| && s.ds[d].q == q && Claims(s.ds[d].pc))
  }

  /** With one drainer the tasks are started as they are dequeued. */
  ghost predicate SerialOk(s: State, d: nat, x: Drainer) {
    x.q < |s.qs| && s.qs[x.q].conc == 1 ==>
      s.qs[x.q].dequeued == s.qs[x.q].started + if x.pc.Want? then [x.pc.job] else []
  }

  ghost predicate Serial(s: State) {
    forall d: nat :: d < |s.ds| ==> SerialOk(s, d, s.ds[d])
  }

  ghost predicate Inv(s: State) {
    Counts(s) && Held(s) && Buffers(s) && Barriers(s) && Serial(s)
  }

  // ---------------------------------------------------------------- how the counted sets move

  /** Membership of one index decides by how much a set defined over indices changes. */
  lemma {:induction false} MoveCard(a: set<nat>, b: set<nat>, d: nat)
    requires a - {d} == b - {d}
    ensures |b| == |a| + (if d in b then 1 else 0) - (if d in a then 1 else 0)
  {
    assert |a| == |a - {d}| + if d in a then 1 else 0;
    assert |b| == |b - {d}| + if d in b then 1 else 0;
  }

  lemma {:induction false} DrainersMove(ds: seq<Drainer>, d: nat, pc: Pc, ds': seq<Drainer>, q: nat)
    requires d < |ds| && ds' == ds[d := ds[d].(pc := pc)] && ds[d].pc != Gone
    ensures Crew(ds', q) == Crew(ds, q)
    ensures |Remaining(ds', q)| == |Remaining(ds, q)| - if q == ds[d].q && pc == Gone then 1 else 0
    ensures |ActiveSet(ds', q)| == |ActiveSet(ds, q)| + (if q == ds[d].q && Counted(pc) then 1 else 0)
                                                     - (if q == ds[d].q && Counted(ds[d].pc) then 1 else 0)
  {
    MoveCard(Remaining(ds, q), Remaining(ds', q), d);
    MoveCard(ActiveSet(ds, q), ActiveSet(ds', q), d);
  }

  lemma {:induction false} WokenSets(ds: seq<Drainer>, q: nat, p: nat)
    ensures Crew(Woken(ds, q), p) == Crew(ds, p) && Remaining(Woken(ds, q), p) == Remaining(ds, p)
    ensures ActiveSet(Woken(ds, q), p) == ActiveSet(ds, p)
  {
  }

  lemma {:induction false} TasksMove(ts: seq<Task>, t: nat, x: Task)
    requires t < |ts|
    ensures |OpenTasks(ts[t := x])| ==
            |OpenTasks(ts)| + (if Open(x.phase) then 1 else 0) - (if Open(ts[t].phase) then 1 else 0)
  {
    MoveCard(OpenTasks(ts), OpenTasks(ts[t := x]), t);
  }

  lemma {:induction false} SubsetCard(a: set<nat>, b: set<nat>)
    requires a <= b
    ensures |a| <= |b|
  {
    if a != {} {
      var x :| x in a;
      SubsetCard(a - {x}, b - {x});
    }
  }

  /** The only drainer of a serial queue. */
  lemma {:induction false} OnlyDrainer(ds: seq<Drainer>, q: nat, d: nat, e: nat)
    requires |Crew(ds, q)| == 1 && d < |ds| && e < |ds| && ds[d].q == q && ds[e].q == q
    ensures d == e
  {
    assert {d, e} <= Crew(ds, q);
    if d != e {
      SubsetCard({d, e}, Crew(ds, q));
    }
  }

  // ---------------------------------------------------------------- steps of one drainer

  /** Queue counters follow the move of one drainer. */
  lemma {:induction false} CrewStep(s: State, d: nat, pc: Pc, s': State)
    requires (forall q: nat :: q < |s.qs| ==> CrewOk(s.ds, q, s.qs[q])) && d < |s.ds| && s.ds[d].q < |s.qs|
    requires s'.ds == s.ds[d := s.ds[d].(pc := pc)] && |s'.qs| == |s.qs|
    requires forall q: nat :: q < |s.qs| && q != s.ds[d].q ==> s'.qs[q] == s.qs[q]
    requires var x, x' := s.qs[s.ds[d].q], s'.qs[s.ds[d].q];
      && x'.conc == x.conc && x'.freed == x.freed && s.ds[d].pc != Gone
      && x'.drain == x.drain - (if pc == Gone then 1 else 0)
      && (x.conc > 1 ==> x'.active == x.active + (if Counted(pc) then 1 else 0) - (if Counted(s.ds[d].pc) then 1 else 0))
    ensures forall q: nat :: q < |s'.qs| ==> CrewOk(s'.ds, q, s'.qs[q])
  {
    forall q: nat | q < |s'.qs|
      ensures CrewOk(s'.ds, q, s'.qs[q])
    {
      assert CrewOk(s.ds, q, s.qs[q]);
      DrainersMove(s.ds, d, pc, s'.ds, q);
    }
  }

  /** One drainer and its task t, held, taken or given up, move together. */
  lemma {:induction false} HeldStep(s: State, d: nat, pc: Pc, t: nat, x: Task, s': State)
    requires Held(s) && d < |s.ds| && t < |s.ts| && |s'.qs| == |s.qs|
    requires s'.ds == s.ds[d := s.ds[d].(pc := pc)] && s'.ts == s.ts[t := x]
    requires HasJob(s.ds[d].pc) ==> s.ds[d].pc.job.id == t
    requires HasJob(pc) ==> pc.job.id == t
    requires s.ts[t].phase.Taken? ==> s.ts[t].phase.d == d
    requires JobOk(s', d, s'.ds[d]) && TaskOk(s', t, x)
    ensures Held(s')
  {
  }

  /** A drainer without a job moves to another place without one. */
  lemma {:induction false} IdleStep(s: State, d: nat, pc: Pc, s': State)
    requires Held(s) && d < |s.ds| && |s'.qs| == |s.qs| && s'.ts == s.ts
    requires s'.ds == s.ds[d := s.ds[d].(pc := pc)] && !HasJob(s.ds[d].pc) && !HasJob(pc)
    ensures Held(s')
  {
  }

  ghost predicate SameChannel(x: Queue, x': Queue) {
    x'.buf == x.buf && x'.accepted == x.accepted && x'.dequeued == x.dequeued && x'.conc == x.conc
  }

  ghost predicate SameStage(x: Task, x': Task) {
    x'.q == x.q && (WasAccepted(x'.phase) <==> WasAccepted(x.phase)) && (x'.phase == Queued <==> x.phase == Queued)
  }

  lemma {:induction false} BuffersFrame(s: State, s': State)
    requires Buffers(s) && |s'.qs| == |s.qs| && |s'.ts| == |s.ts|
    requires forall q: nat :: q < |s.qs| ==> SameChannel(s.qs[q], s'.qs[q])
    requires forall t: nat :: t < |s.ts| ==> SameStage(s.ts[t], s'.ts[t])
    ensures Buffers(s')
  {
    forall q: nat | q < |s'.qs|
      ensures BufferOk(s', q, s'.qs[q])
    {
      assert BufferOk(s, q, s.qs[q]);
    }
  }

  /** A serial queue keeps its order when nothing of it is dequeued or started. */
  lemma {:induction false} SerialFrame(s: State, d: nat, pc: Pc, s': State)
    requires Serial(s) && d < |s.ds| && |s'.qs| == |s.qs| && s'.ds == s.ds[d := s.ds[d].(pc := pc)]
    requires forall q: nat :: q < |s.qs| ==>
      && s'.qs[q].conc == s.qs[q].conc && s'.qs[q].dequeued == s.qs[q].dequeued
      && (s.qs[q].conc == 1 ==> s'.qs[q].started == s.qs[q].started)
    requires s.ds[d].q < |s.qs| && (s.qs[s.ds[d].q].conc == 1 ==> !pc.Want? && !s.ds[d].pc.Want?)
    ensures Serial(s')
  {
    forall e: nat | e < |s'.ds|
      ensures SerialOk(s', e, s'.ds[e])
    {
      assert SerialOk(s, e, s.ds[e]);
    }
  }

  // ---------------------------------------------------------------- receive

  lemma {:induction false} ReceiveCounts(s: State, d: nat, s': State)
    requires Inv(s) && Receive(s, d, s')
    ensures Counts(s')
  {
    var j := s.qs[s.ds[d].q].buf[0];
    assert BufferOk(s, s.ds[d].q, s.qs[s.ds[d].q]);
    TasksMove(s.ts, j.id, s'.ts[j.id]);
    CrewStep(s, d, Want(j), s');
  }

  lemma {:induction false} ReceiveHeld(s: State, d: nat, s': State)
    requires Held(s) && Buffers(s) && Receive(s, d, s')
    ensures Held(s')
  {
    var j := s.qs[s.ds[d].q].buf[0];
    var x := s.qs[s.ds[d].q];
    assert BufferOk(s, s.ds[d].q, x);
    assert x.accepted[|x.dequeued|] == j;
    HeldStep(s, d, Want(j), j.id, s'.ts[j.id], s');
  }

  /** The queue that was received from. */
  lemma {:induction false} ReceiveHere(s: State, d: nat, s': State)
    requires Receive(s, d, s') && BufferOk(s, s.ds[d].q, s.qs[s.ds[d].q])
    ensures BufferOk(s', s.ds[d].q, s'.qs[s.ds[d].q])
  {
    var p := s.ds[d].q;
    var x, x' := s.qs[p], s'.qs[p];
    assert x.accepted[|x.dequeued|] == x.buf[0] && x'.accepted == x'.dequeued + x'.buf;
    forall k: nat | k < |x'.accepted|
      ensures AcceptedOk(s', p, x', x'.accepted[k])
    {
      assert AcceptedOk(s, p, x, x.accepted[k]);
    }
    forall k: nat | k < |x'.buf|
      ensures x'.buf[k].id < |s'.ts| && s'.ts[x'.buf[k].id].phase == Queued
    {
      assert x'.buf[k] == x.buf[k + 1] == x.accepted[|x.dequeued| + 1 + k];
    }
  }

  /** Another queue: what changed is not a task of its own. */
  lemma {:induction false} ReceiveElsewhere(s: State, d: nat, s': State, q: nat)
    requires Receive(s, d, s') && BufferOk(s, s.ds[d].q, s.qs[s.ds[d].q])
    requires q < |s.qs| && q != s.ds[d].q && BufferOk(s, q, s.qs[q])
    ensures BufferOk(s', q, s'.qs[q])
  {
    var p, x := s.ds[d].q, s.qs[s.ds[d].q];
    assert x.accepted[|x.dequeued|] == x.buf[0] && AcceptedOk(s, p, x, x.accepted[|x.dequeued|]);
    var y := s.qs[q];
    forall k: nat | k < |y.accepted|
      ensures AcceptedOk(s', q, y, y.accepted[k])
    {
      assert AcceptedOk(s, q, y, y.accepted[k]);
    }
    assert forall k: nat :: k < |y.buf| ==> y.accepted[|y.dequeued| + k] == y.buf[k];
  }

  lemma {:induction false} ReceiveBuffers(s: State, d: nat, s': State)
    requires Buffers(s) && Receive(s, d, s')
    ensures Buffers(s')
  {
    var p := s.ds[d].q;
    var x, x' := s.qs[p], s'.qs[p];
    assert BufferOk(s, p, x);
    ReceiveHere(s, d, s');
    forall q: nat | q < |s'.qs|
      ensures BufferOk(s', q, s'.qs[q])
    {
      assert BufferOk(s, q, s.qs[q]);
      if q != p {
        ReceiveElsewhere(s, d, s', q);
      }
    }
    forall t: nat | t < |s'.ts| && s'.ts[t].phase == Queued
      ensures s'.ts[t].q < |s'.qs| && Ids(s'.qs[s'.ts[t].q].buf, t)
    {
      var k: nat :| k < |s.qs[s.ts[t].q].buf| && s.qs[s.ts[t].q].buf[k].id == t;
      if s.ts[t].q == p {
        assert x'.buf[k - 1].id == t;
      }
    }
  }

  lemma {:induction false} ReceiveBarriers(s: State, d: nat, s': State)
    requires Barriers(s) && Buffers(s) && Receive(s, d, s')
    ensures Barriers(s')
  {
    var x := s.qs[s.ds[d].q];
    assert BufferOk(s, s.ds[d].q, x);
    assert x.accepted[|x.dequeued|] == x.buf[0];
    forall e: nat | e < |s'.ds|
      ensures BarrierOk(s', e, s'.ds[e])
    {
      assert BarrierOk(s, e, s.ds[e]);
    }
  }

  lemma {:induction false} ReceiveSerial(s: State, d: nat, s': State)
    requires Counts(s) && Serial(s) && Receive(s, d, s')
    ensures Serial(s')
  {
    var p := s.ds[d].q;
    assert SerialOk(s, d, s.ds[d]) && CrewOk(s.ds, p, s.qs[p]);
    forall e: nat | e < |s'.ds|
      ensures SerialOk(s', e, s'.ds[e])
    {
      assert SerialOk(s, e, s.ds[e]);
      if s.ds[e].q == p && s.qs[p].conc == 1 {
        OnlyDrainer(s.ds, p, d, e);
      }
    }
  }

  // ---------------------------------------------------------------- the body begins

  /** The drainer has its job and may begin: a serial queue, or a section that let it through. */
  ghost predicate Begins(s: State, d: nat, j: Job, x: Queue, s': State) {
    && d < |s.ds| && s.ds[d].q < |s.qs| && j.id < |s.ts| && (s.ds[d].pc.Want? || s.ds[d].pc.Sleep?) && s.ds[d].pc.job == j
    && x == s.qs[s.ds[d].q].(claim := x.claim, active := x.active)
    && s' == Begin(s, d, j, x)
    && (x.conc > 1 ==> x.active == s.qs[s.ds[d].q].active + if j.barrier then 0 else 1)
  }

  lemma {:induction false} BeginCounts(s: State, d: nat, j: Job, x: Queue, s': State)
    requires Counts(s) && Held(s) && Begins(s, d, j, x, s')
    ensures Counts(s')
  {
    assert JobOk(s, d, s.ds[d]);
    TasksMove(s.ts, j.id, s'.ts[j.id]);
    CrewStep(s, d, Running(j), s');
  }

  lemma {:induction false} BeginHeld(s: State, d: nat, j: Job, x: Queue, s': State)
    requires Held(s) && Begins(s, d, j, x, s')
    ensures Held(s')
  {
    assert JobOk(s, d, s.ds[d]);
    HeldStep(s, d, Running(j), j.id, s'.ts[j.id], s');
  }

  lemma {:induction false} BeginSerial(s: State, d: nat, j: Job, x: Queue, s': State)
    requires Counts(s) && Serial(s) && Barriers(s) && Begins(s, d, j, x, s')
    ensures Serial(s')
  {
    var p := s.ds[d].q;
    assert SerialOk(s, d, s.ds[d]) && CrewOk(s.ds, p, s.qs[p]) && BarrierOk(s, d, s.ds[d]);
    forall e: nat | e < |s'.ds|
      ensures SerialOk(s', e, s'.ds[e])
    {
      assert SerialOk(s, e, s.ds[e]);
      if s.ds[e].q == p && s.qs[p].conc == 1 {
        OnlyDrainer(s.ds, p, d, e);
      }
    }
  }

  lemma {:induction false} BeginRest(s: State, d: nat, j: Job, x: Queue, s': State)
    requires Inv(s) && Begins(s, d, j, x, s')
    ensures Counts(s') && Held(s') && Buffers(s') && Serial(s')
  {
    BeginCounts(s, d, j, x, s');
    BeginHeld(s, d, j, x, s');
    BeginSerial(s, d, j, x, s');
    BuffersFrame(s, s');
  }

  lemma {:induction false} SerialBarriers(s: State, d: nat, s': State)
    requires Barriers(s) && StartSerial(s, d, s')
    ensures Barriers(s')
  {
    forall e: nat | e < |s'.ds|
      ensures BarrierOk(s', e, s'.ds[e])
    {
      assert BarrierOk(s, e, s.ds[e]);
    }
    assert BarrierOk(s, d, s.ds[d]);
  }

  /** A section that lets a drainer through, or claims for it, leaves the others in order. */
  lemma {:induction false} EnterOther(s: State, d: nat, s': State, e: nat)
    requires Enter(s, d, s') && BarrierOk(s, d, s.ds[d]) && e < |s.ds| && e != d && BarrierOk(s, e, s.ds[e])
    ensures BarrierOk(s', e, s'.ds[e])
  {
    assert s'.ds[e] == s.ds[e];
  }

  lemma {:induction false} EnterSelf(s: State, d: nat, s': State)
    requires Enter(s, d, s') && BarrierOk(s, d, s.ds[d])
    ensures BarrierOk(s', d, s'.ds[d])
  {
  }

  lemma {:induction false} EnterBarriers(s: State, d: nat, s': State)
    requires Barriers(s) && Enter(s, d, s')
    ensures Barriers(s')
  {
    forall e: nat | e < |s'.ds|
      ensures BarrierOk(s', e, s'.ds[e])
    {
      assert BarrierOk(s, d, s.ds[d]) && BarrierOk(s, e, s.ds[e]);
      if e == d {
        EnterSelf(s, d, s');
      } else {
        EnterOther(s, d, s', e);
      }
    }
  }

  lemma {:induction false} EnterClaimedBarriers(s: State, d: nat, s': State)
    requires Barriers(s) && EnterClaimed(s, d, s')
    ensures Barriers(s')
  {
    assert BarrierOk(s, d, s.ds[d]);
    forall e: nat | e < |s'.ds|
      ensures BarrierOk(s', e, s'.ds[e])
    {
      assert BarrierOk(s, e, s.ds[e]);
    }
  }

  // ---------------------------------------------------------------- sleep, wake, end

  /** A move that changes neither task nor counters. */
  lemma {:induction false} QuietStep(s: State, d: nat, pc: Pc, s': State)
    requires Inv(s) && d < |s.ds| && s.ds[d].q < |s.qs| && s' == SetD(s, d, pc).(qs := s'.qs)
    requires |s'.qs| == |s.qs| && (forall q: nat :: q < |s.qs| ==> s'.qs[q] == if q == s.ds[d].q then s.qs[q].(claim := s'.qs[q].claim) else s.qs[q])
    requires HasJob(pc) && HasJob(s.ds[d].pc) && pc.job == s.ds[d].pc.job && !pc.Want?
    requires (pc.Sleep? <==> s.ds[d].pc.Want? || s.ds[d].pc.Sleep?) && (s.qs[s.ds[d].q].conc > 1 ==> (Counted(pc) <==> Counted(s.ds[d].pc)))
    requires s.ds[d].pc.Want? ==> s.qs[s.ds[d].q].conc > 1
    ensures Counts(s') && Held(s') && Buffers(s') && Serial(s')
  {
    assert JobOk(s, d, s.ds[d]);
    CrewStep(s, d, pc, s');
    HeldStep(s, d, pc, pc.job.id, s.ts[pc.job.id], s');
    BuffersFrame(s, s');
    SerialFrame(s, d, pc, s');
  }

  lemma {:induction false} EnterOk(s: State, d: nat, s': State)
    requires Inv(s) && Enter(s, d, s')
    ensures Inv(s')
  {
    EnterBarriers(s, d, s');
    var j := s.ds[d].pc.job;
    var x := s.qs[s.ds[d].q];
    if x.claim != Unclaimed {
      QuietStep(s, d, Sleep(j, false, false), s');
    } else if !j.barrier {
      BeginRest(s, d, j, x.(active := x.active + 1), s');
    } else if x.active > 0 {
      QuietStep(s, d, Sleep(j, true, false), s');
    } else {
      BeginRest(s, d, j, x.(claim := By(d)), s');
    }
  }

  lemma {:induction false} EnterClaimedOk(s: State, d: nat, s': State)
    requires Inv(s) && EnterClaimed(s, d, s')
    ensures Inv(s')
  {
    EnterClaimedBarriers(s, d, s');
    assert BarrierOk(s, d, s.ds[d]);
    var j := s.ds[d].pc.job;
    var x := s.qs[s.ds[d].q];
    if x.active > 0 {
      QuietStep(s, d, Sleep(j, true, false), s');
    } else {
      BeginRest(s, d, j, x, s');
    }
  }

  lemma {:induction false} StartSerialOk(s: State, d: nat, s': State)
    requires Inv(s) && StartSerial(s, d, s')
    ensures Inv(s')
  {
    SerialBarriers(s, d, s');
    BeginRest(s, d, s.ds[d].pc.job, s.qs[s.ds[d].q], s');
  }

  lemma {:induction false} QuietBarriers(s: State, a: Step, s': State)
    requires Barriers(s) && Next(s, a, s') && (a.DoStray? || a.DoBodyEnd?)
    ensures Barriers(s')
  {
    forall e: nat | e < |s'.ds|
      ensures BarrierOk(s', e, s'.ds[e])
    {
      assert BarrierOk(s, e, s.ds[e]);
    }
    assert BarrierOk(s, a.d, s.ds[a.d]);
  }

  lemma {:induction false} StrayOk(s: State, d: nat, s': State)
    requires Inv(s) && Stray(s, d, s')
    ensures Inv(s')
  {
    QuietBarriers(s, DoStray(d), s');
    QuietStep(s, d, s.ds[d].pc.(woken := true), s');
  }

  lemma {:induction false} BodyEndOk(s: State, d: nat, s': State)
    requires Inv(s) && BodyEnd(s, d, s')
    ensures Inv(s')
  {
    QuietBarriers(s, DoBodyEnd(d), s');
    QuietStep(s, d, s'.ds[d].pc, s');
  }

  /** A broadcast by itself. */
  lemma {:induction false} BroadcastHeld(s: State, q: nat, s': State)
    requires Held(s) && s' == s.(ds := Woken(s.ds, q))
    ensures Held(s')
  {
    forall e: nat | e < |s.ds|
      ensures JobOk(s', e, s'.ds[e])
    {
      assert JobOk(s, e, s.ds[e]);
    }
    forall t: nat | t < |s.ts|
      ensures TaskOk(s', t, s'.ts[t])
    {
      assert TaskOk(s, t, s.ts[t]);
    }
  }

  lemma {:induction false} BroadcastOk(s: State, q: nat, s': State)
    requires Inv(s) && s' == s.(ds := Woken(s.ds, q))
    ensures Counts(s') && Held(s') && Buffers(s') && Serial(s')
  {
    forall p: nat | p < |s.qs|
      ensures CrewOk(s'.ds, p, s'.qs[p])
    {
      assert CrewOk(s.ds, p, s.qs[p]);
      WokenSets(s.ds, q, p);
    }
    BuffersFrame(s, s');
    BroadcastHeld(s, q, s');
    forall e: nat | e < |s.ds|
      ensures SerialOk(s', e, s'.ds[e])
    {
      assert SerialOk(s, e, s.ds[e]);
    }
  }

  lemma {:induction false} BroadcastBarriers(s: State, q: nat, s': State)
    requires Barriers(s) && s' == s.(ds := Woken(s.ds, q))
    ensures Barriers(s')
  {
    forall e: nat | e < |s.ds|
      ensures BarrierOk(s', e, s'.ds[e])
    {
      assert BarrierOk(s, e, s.ds[e]);
    }
  }

  lemma {:induction false} BroadcastInv(s: State, q: nat, s': State)
    requires Inv(s) && s' == s.(ds := Woken(s.ds, q))
    ensures Inv(s')
  {
    BroadcastOk(s, q, s');
    BroadcastBarriers(s, q, s');
  }

  /** The section after a body, once the sleepers it wakes are awake. */
  lemma {:induction false} FinishSection(s: State, d: nat, x: Queue, s': State)
    requires Inv(s) && d < |s.ds| && s.ds[d].pc.Ending? && s.ds[d].q < |s.qs|
    requires x == s.qs[s.ds[d].q].(claim := x.claim, active := x.active)
    requires s' == SetQ(SetD(s, d, Ended(s.ds[d].pc.job)), s.ds[d].q, x)
    requires x.active == s.qs[s.ds[d].q].active - if s.ds[d].pc.job.barrier then 0 else 1
    ensures Counts(s') && Held(s') && Buffers(s') && Serial(s')
  {
    assert JobOk(s, d, s.ds[d]);
    var j := s.ds[d].pc.job;
    CrewStep(s, d, Ended(j), s');
    HeldStep(s, d, Ended(j), j.id, s.ts[j.id], s');
    BuffersFrame(s, s');
    SerialFrame(s, d, Ended(j), s');
  }

  lemma {:induction false} FinishBarriers(s: State, d: nat, x: Queue, s': State)
    requires Barriers(s) && d < |s.ds| && s.ds[d].pc.Ending? && s.ds[d].q < |s.qs|
    requires s' == SetQ(SetD(s, d, Ended(s.ds[d].pc.job)), s.ds[d].q, x)
    requires var y, j := s.qs[s.ds[d].q], s.ds[d].pc.job;
      if j.barrier then x == y.(claim := Unclaimed) else y.active > 0 && x == y.(active := y.active - 1)
    requires s.ds[d].pc.job.barrier || x.active == 0 ==>
      forall e: nat :: e < |s.ds| && s.ds[e].q == s.ds[d].q && s.ds[e].pc.Sleep? ==> s.ds[e].pc.woken
    ensures Barriers(s')
  {
    assert BarrierOk(s, d, s.ds[d]);
    forall e: nat | e < |s'.ds|
      ensures BarrierOk(s', e, s'.ds[e])
    {
      assert BarrierOk(s, e, s.ds[e]);
    }
  }

  lemma {:induction false} EndSectionOk(s: State, d: nat, s': State)
    requires Inv(s) && EndSection(s, d, s')
    ensures Inv(s')
  {
    var j, q := s.ds[d].pc.job, s.ds[d].q;
    if j.barrier {
      EndAfterBroadcast(s, d, s.qs[q].(claim := Unclaimed), s');
    } else if s.qs[q].active == 1 {
      EndAfterBroadcast(s, d, s.qs[q].(active := 0), s');
    } else {
      var x := s.qs[q].(active := s.qs[q].active - 1);
      FinishSection(s, d, x, s');
      FinishBarriers(s, d, x, s');
    }
  }

  lemma {:induction false} EndAfterBroadcast(s: State, d: nat, x: Queue, s': State)
    requires Inv(s) && d < |s.ds| && s.ds[d].pc.Ending? && s.ds[d].q < |s.qs|
    requires var y, j := s.qs[s.ds[d].q], s.ds[d].pc.job;
      if j.barrier then x == y.(claim := Unclaimed) else y.active > 0 && x == y.(active := y.active - 1)
    requires s' == SetQ(SetD(s, d, Ended(s.ds[d].pc.job)).(ds := Woken(SetD(s, d, Ended(s.ds[d].pc.job)).ds, s.ds[d].q)), s.ds[d].q, x)
    ensures Inv(s')
  {
    var q := s.ds[d].q;
    var s1 := s.(ds := Woken(s.ds, q));
    EndSplit(s, d, x, s1, s');
    BroadcastInv(s, q, s1);
    EndAwake(s1, d, x, s');
  }

  /** Waking first and finishing then gives the same state. */
  lemma {:induction false} EndSplit(s: State, d: nat, x: Queue, s1: State, s': State)
    requires d < |s.ds| && s.ds[d].pc.Ending? && s.ds[d].q < |s.qs| && s1 == s.(ds := Woken(s.ds, s.ds[d].q))
    requires s' == SetQ(SetD(s, d, Ended(s.ds[d].pc.job)).(ds := Woken(SetD(s, d, Ended(s.ds[d].pc.job)).ds, s.ds[d].q)), s.ds[d].q, x)
    ensures |s1.ds| == |s.ds| && s1.ds[d] == s.ds[d] && s' == SetQ(SetD(s1, d, Ended(s.ds[d].pc.job)), s.ds[d].q, x)
    ensures forall e: nat :: e < |s1.ds| && s1.ds[e].q == s.ds[d].q && s1.ds[e].pc.Sleep? ==> s1.ds[e].pc.woken
  {
    WokenAround(s.ds, d, Ended(s.ds[d].pc.job), s.ds[d].q);
  }

  lemma {:induction false} WokenAround(ds: seq<Drainer>, d: nat, pc: Pc, q: nat)
    requires d < |ds| && !ds[d].pc.Sleep? && !pc.Sleep?
    ensures Woken(ds[d := ds[d].(pc := pc)], q) == Woken(ds, q)[d := ds[d].(pc := pc)]
    ensures Woken(ds, q)[d] == ds[d]
    ensures forall e: nat :: e < |ds| && Woken(ds, q)[e].q == q && Woken(ds, q)[e].pc.Sleep? ==> Woken(ds, q)[e].pc.woken
  {
  }

  lemma {:induction false} EndAwake(s: State, d: nat, x: Queue, s': State)
    requires Inv(s) && d < |s.ds| && s.ds[d].pc.Ending? && s.ds[d].q < |s.qs|
    requires var y, j := s.qs[s.ds[d].q], s.ds[d].pc.job;
      if j.barrier then x == y.(claim := Unclaimed) else y.active > 0 && x == y.(active := y.active - 1)
    requires forall e: nat :: e < |s.ds| && s.ds[e].q == s.ds[d].q && s.ds[e].pc.Sleep? ==> s.ds[e].pc.woken
    requires s' == SetQ(SetD(s, d, Ended(s.ds[d].pc.job)), s.ds[d].q, x)
    ensures Inv(s')
  {
    FinishSection(s, d, x, s');
    FinishBarriers(s, d, x, s');
  }

  lemma {:induction false} WorkEndOk(s: State, d: nat, s': State)
    requires Inv(s) && WorkEnd(s, d, s')
    ensures Inv(s')
  {
    assert JobOk(s, d, s.ds[d]);
    var t := s.ds[d].pc.job.id;
    TasksMove(s.ts, t, s'.ts[t]);
    CrewStep(s, d, Recv, s');
    HeldStep(s, d, Recv, t, s'.ts[t], s');
    BuffersFrame(s, s');
    SerialFrame(s, d, Recv, s');
    MoveBarriers(s, d, Recv, s');
  }

  /** A drainer that neither claims nor sleeps moves outside the sections. */
  lemma {:induction false} MoveBarriers(s: State, d: nat, pc: Pc, s': State)
    requires Barriers(s) && d < |s.ds| && s'.ds == s.ds[d := s.ds[d].(pc := pc)] && |s'.qs| == |s.qs|
    requires !Claims(s.ds[d].pc) && (pc == Recv || pc == Exiting || pc == Gone)
    requires forall q: nat :: q < |s.qs| ==> s'.qs[q] == s.qs[q].(drain := s'.qs[q].drain)
    requires BarrierOk(s', d, s'.ds[d])
    ensures Barriers(s')
  {
    forall e: nat | e < |s'.ds|
      ensures BarrierOk(s', e, s'.ds[e])
    {
      assert BarrierOk(s, e, s.ds[e]);
    }
  }

  lemma {:induction false} ReceiveClosedOk(s: State, d: nat, s': State)
    requires Inv(s) && ReceiveClosed(s, d, s')
    ensures Inv(s')
  {
    assert BarrierOk(s, d, s.ds[d]);
    CrewStep(s, d, Exiting, s');
    IdleStep(s, d, Exiting, s');
    BuffersFrame(s, s');
    SerialFrame(s, d, Exiting, s');
    MoveBarriers(s, d, Exiting, s');
  }

  lemma {:induction false} LeaveOk(s: State, d: nat, s': State)
    requires Inv(s) && Leave(s, d, s')
    ensures Inv(s')
  {
    assert BarrierOk(s, d, s.ds[d]);
    CrewStep(s, d, Gone, s');
    IdleStep(s, d, Gone, s');
    BuffersFrame(s, s');
    SerialFrame(s, d, Gone, s');
    MoveBarriers(s, d, Gone, s');
  }

  lemma {:induction false} ReceiveOk(s: State, d: nat, s': State)
    requires Inv(s) && Receive(s, d, s')
    ensures Inv(s')
  {
    ReceiveCounts(s, d, s');
    ReceiveHeld(s, d, s');
    ReceiveBuffers(s, d, s');
    ReceiveBarriers(s, d, s');
    ReceiveSerial(s, d, s');
  }

  // ---------------------------------------------------------------- steps of submitters and owners

  /** Steps that leave the drainers and the queues' coordination alone. */
  lemma {:induction false} OutsideFrame(s: State, s': State)
    requires Inv(s) && s'.ds == s.ds && |s'.qs| == |s.qs|
    requires forall q: nat :: q < |s.qs| ==> s'.qs[q] == s.qs[q].(buf := s'.qs[q].buf, accepted := s'.qs[q].accepted, closed := s'.qs[q].closed, freed := s'.qs[q].freed)
    requires forall q: nat :: q < |s.qs| ==> (s'.qs[q].freed ==> s.qs[q].drain == 0) && (s.qs[q].closed ==> s'.qs[q].closed && s'.qs[q].buf == s.qs[q].buf)
    ensures Barriers(s') && Serial(s') && forall q: nat :: q < |s'.qs| ==> CrewOk(s'.ds, q, s'.qs[q])
  {
    forall q: nat | q < |s'.qs|
      ensures CrewOk(s'.ds, q, s'.qs[q])
    {
      assert CrewOk(s.ds, q, s.qs[q]);
    }
    forall e: nat | e < |s'.ds|
      ensures BarrierOk(s', e, s'.ds[e]) && SerialOk(s', e, s'.ds[e])
    {
      assert BarrierOk(s, e, s.ds[e]) && SerialOk(s, e, s.ds[e]);
    }
  }

  /** A task nobody holds changes its phase, and nobody holds it still. */
  lemma {:induction false} FreeTask(s: State, t: nat, x: Task, s': State)
    requires Held(s) && s'.ds == s.ds && |s'.qs| == |s.qs| && t < |s.ts| && s'.ts == s.ts[t := x]
    requires !s.ts[t].phase.Taken? && !x.phase.Taken? && TaskOk(s', t, x)
    ensures Held(s')
  {
  }

  lemma {:induction false} SubmitOk(s: State, q: nat, s': State)
    requires Inv(s) && Submit(s, q, s')
    ensures Inv(s')
  {
    OutsideFrame(s, s');
    assert OpenTasks(s'.ts) == OpenTasks(s.ts) + {|s.ts|};
    SubmitHeld(s, q, s');
    SubmitBuffers(s, q, s');
  }

  lemma {:induction false} SubmitHeld(s: State, q: nat, s': State)
    requires Held(s) && Submit(s, q, s')
    ensures Held(s')
  {
    forall d: nat | d < |s'.ds|
      ensures JobOk(s', d, s'.ds[d])
    {
      assert JobOk(s, d, s.ds[d]);
    }
    forall t: nat | t < |s'.ts|
      ensures TaskOk(s', t, s'.ts[t])
    {
      assert t < |s.ts| ==> TaskOk(s, t, s.ts[t]);
    }
  }

  lemma {:induction false} SubmitBuffers(s: State, q: nat, s': State)
    requires Buffers(s) && Submit(s, q, s')
    ensures Buffers(s')
  {
    forall p: nat | p < |s'.qs|
      ensures BufferOk(s', p, s'.qs[p])
    {
      assert BufferOk(s, p, s.qs[p]);
    }
  }

  lemma {:induction false} RefuseOk(s: State, a: Step, s': State)
    requires Inv(s) && Next(s, a, s') && (a.DoRefuse? || a.DoRefuseEnd?)
    ensures Inv(s')
  {
    OutsideFrame(s, s');
    TasksMove(s.ts, a.t, s'.ts[a.t]);
    assert TaskOk(s, a.t, s.ts[a.t]);
    FreeTask(s, a.t, s'.ts[a.t], s');
    BuffersFrame(s, s');
  }

  lemma {:induction false} AcceptBuffer(s: State, t: nat, barrier: bool, s': State)
    requires Accept(s, t, barrier, s') && BufferOk(s, s.ts[t].q, s.qs[s.ts[t].q])
    ensures BufferOk(s', s.ts[t].q, s'.qs[s.ts[t].q])
  {
    var q := s.ts[t].q;
    var x, x' := s.qs[q], s'.qs[q];
    forall k: nat | k < |x'.accepted|
      ensures AcceptedOk(s', q, x', x'.accepted[k])
    {
      if k < |x.accepted| {
        assert AcceptedOk(s, q, x, x.accepted[k]);
      }
    }
    assert forall k: nat :: k < |x.accepted| ==> AcceptedOk(s, q, x, x.accepted[k]) && x.accepted[k].id != t;
    assert x'.accepted == x'.dequeued + x'.buf;
  }

  lemma {:induction false} AcceptElsewhere(s: State, t: nat, barrier: bool, s': State, q: nat)
    requires Accept(s, t, barrier, s') && q < |s.qs| && q != s.ts[t].q && BufferOk(s, q, s.qs[q])
    ensures BufferOk(s', q, s'.qs[q])
  {
    var x := s.qs[q];
    forall k: nat | k < |x.accepted|
      ensures AcceptedOk(s', q, x, x.accepted[k])
    {
      assert AcceptedOk(s, q, x, x.accepted[k]);
    }
  }

  lemma {:induction false} AcceptBuffers(s: State, t: nat, barrier: bool, s': State)
    requires Buffers(s) && Accept(s, t, barrier, s')
    ensures Buffers(s')
  {
    var p := s.ts[t].q;
    var x, x' := s.qs[p], s'.qs[p];
    forall q: nat | q < |s'.qs|
      ensures BufferOk(s', q, s'.qs[q])
    {
      assert BufferOk(s, q, s.qs[q]);
      if q == p {
        AcceptBuffer(s, t, barrier, s');
      } else {
        AcceptElsewhere(s, t, barrier, s', q);
      }
    }
    assert x'.buf[|x.buf|].id == t && x'.accepted[|x.accepted|].id == t;
    forall u: nat | u < |s'.ts|
      ensures s'.ts[u].phase == Queued ==> s'.ts[u].q < |s'.qs| && Ids(s'.qs[s'.ts[u].q].buf, u)
      ensures WasAccepted(s'.ts[u].phase) ==> s'.ts[u].q < |s'.qs| && Ids(s'.qs[s'.ts[u].q].accepted, u)
    {
      if u != t {
        if s.ts[u].phase == Queued {
          StillThere(s.qs[s.ts[u].q].buf, s'.qs[s.ts[u].q].buf, u);
        }
        if WasAccepted(s.ts[u].phase) {
          StillThere(s.qs[s.ts[u].q].accepted, s'.qs[s.ts[u].q].accepted, u);
        }
      }
    }
  }

  lemma {:induction false} StillThere(l: seq<Job>, l': seq<Job>, t: nat)
    requires Ids(l, t) && |l| <= |l'| && l == l'[..|l|]
    ensures Ids(l', t)
  {
    var k: nat :| k < |l| && l[k].id == t;
    assert l'[k].id == t;
  }

  lemma {:induction false} AcceptOk(s: State, t: nat, barrier: bool, s': State)
    requires Inv(s) && Accept(s, t, barrier, s')
    ensures Inv(s')
  {
    OutsideFrame(s, s');
    TasksMove(s.ts, t, s'.ts[t]);
    assert TaskOk(s, t, s.ts[t]);
    FreeTask(s, t, s'.ts[t], s');
    AcceptBuffers(s, t, barrier, s');
  }

  lemma {:induction false} OwnerStepOk(s: State, a: Step, s': State)
    requires Inv(s) && Next(s, a, s') && (a.DoClose? || a.DoFree?)
    ensures Inv(s')
  {
    OutsideFrame(s, s');
    BuffersFrame(s, s');
  }

  lemma {:induction false} LifeStepOk(s: State, a: Step, s': State)
    requires Inv(s) && Next(s, a, s') && (a.DoSpawn? || a.DoExit?)
    ensures Inv(s')
  {
    assert a.DoSpawn? ==> Alive(s'.crs) == Alive(s.crs) + {|s.crs|};
    assert a.DoExit? ==> Alive(s'.crs) == Alive(s.crs) - {a.c};
    OutsideFrame(s, s');
    BuffersFrame(s, s');
    SameHeld(s, s');
  }

  lemma {:induction false} SameHeld(s: State, s': State)
    requires Held(s) && s'.ds == s.ds && s'.ts == s.ts && s'.qs == s.qs
    ensures Held(s')
  {
    forall d: nat | d < |s.ds|
      ensures JobOk(s', d, s'.ds[d])
    {
      assert JobOk(s, d, s.ds[d]);
    }
    forall t: nat | t < |s.ts|
      ensures TaskOk(s', t, s'.ts[t])
    {
      assert TaskOk(s, t, s.ts[t]);
    }
  }

  lemma {:induction false} NextInv(s: State, a: Step, s': State)
    requires Inv(s) && Next(s, a, s')
    ensures Inv(s')
  {
    match a
    case DoSubmit(q) => SubmitOk(s, q, s');
    case DoAccept(t, barrier) => AcceptOk(s, t, barrier, s');
    case DoRefuse(_) => RefuseOk(s, a, s');
    case DoRefuseEnd(_) => RefuseOk(s, a, s');
    case DoReceive(d) => ReceiveOk(s, d, s');
    case DoReceiveClosed(d) => ReceiveClosedOk(s, d, s');
    case DoLeave(d) => LeaveOk(s, d, s');
    case DoStartSerial(d) => StartSerialOk(s, d, s');
    case DoEnter(d) => EnterOk(s, d, s');
    case DoEnterClaimed(d) => EnterClaimedOk(s, d, s');
    case DoStray(d) => StrayOk(s, d, s');
    case DoBodyEnd(d) => BodyEndOk(s, d, s');
    case DoEndSection(d) => EndSectionOk(s, d, s');
    case DoWorkEnd(d) => WorkEndOk(s, d, s');
    case DoClose(_) => OwnerStepOk(s, a, s');
    case DoFree(_) => OwnerStepOk(s, a, s');
    case DoSpawn => LifeStepOk(s, a, s');
    case DoExit(_) => LifeStepOk(s, a, s');
  }

  lemma {:induction false} InitInv(s: State)
    requires Init(s)
    ensures Inv(s)
  {
    forall q: nat | q < |s.qs|
      ensures CrewOk(s.ds, q, s.qs[q])
    {
      assert Remaining(s.ds, q) == Crew(s.ds, q) && ActiveSet(s.ds, q) == {};
    }
    assert OpenTasks(s.ts) == {} && Alive(s.crs) == {};
  }

  lemma {:induction false} RunInv(t: seq<State>, a: seq<Step>, i: nat)
    requires Run(t, a) && i < |t|
    ensures Inv(t[i])
  {
    if i == 0 {
      InitInv(t[0]);
    } else {
      RunInv(t, a, i - 1);
      assert Next(t[i - 1], a[i - 1], t[i - 1 + 1]);
      NextInv(t[i - 1], a[i - 1], t[i]);
    }
  }
}
