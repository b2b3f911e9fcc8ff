/**
 Why a channel call failed: every error of every call of every run names something that
 happened during the call, and a select gives up only after it has tried its cases.
 */
module ChannelAnswers {
  import opened Channels
  import opened ChannelInvariant
  import opened ChannelFifo
  import opened ChannelTheorems

  // ---------------------------------------------------------------- not ready

  /** An undecided receiver of an actor other than x waits at channel c. */
  ghost predicate OtherReceiver(s: State, x: nat, c: nat, n: Node) {
    n.cr < |s.act| && n.cr != x && Undecided(s.act[n.cr], n.slot) && PlaceOf(s.act[n.cr], n.slot) == At(c, false)
  }

  /** The open channel has nothing to get, or no room and nobody to hand the value to. */
  ghost predicate NotReady(s: State, x: nat, op: Case) {
    && op.ch < |s.chans| && !s.chans[op.ch].closed
    && if op.isSend then |s.chans[op.ch].ring| == s.chans[op.ch].cap && forall n :: !OtherReceiver(s, x, op.ch, n)
       else Queue(s, op.ch) == []
  }

  lemma {:induction false} MissNotReady(s: State, a: nat, s': State)
    requires Inv(s) && Miss(s, a, s')
    ensures NotReady(s, a, CurCase(s, a))
  {
    var op := CurCase(s, a);
    assert ChanOk(s, s.chans[op.ch]);
    if op.isSend {
      forall n ensures !OtherReceiver(s, a, op.ch, n) {
        assert OtherReceiver(s, a, op.ch, n) ==> Linked(s, n, PlaceOf(s.act[n.cr], n.slot));
      }
    }
  }

  // ---------------------------------------------------------------- one step that fails a call

  /** The wait record has been set up by this call. */
  predicate AfterReset(pc: Pc) {
    match pc
    case Want(why) => why.Scan? && !why.first
    case Taking(why) => why.Scan? && !why.first
    case Refilling(why) => why.Scan? && !why.first
    case Waking(_, why) => why.Scan? && !why.first
    case Parked => true
    case Reg(_) => true
    case Blocked => true
    case Unreg(_, _, _) => true
    case Finishing(_) => true
    case _ => false
  }

  /** The attempt in progress, if there is one that may still fail. */
  predicate Attempts(pc: Pc, why: Why) {
    pc == Want(why) || pc == Taking(why)
  }

  /** What a step that ends a call with error e found. */
  ghost predicate Cause(s: State, x: nat, e: Err)
    requires x < |s.act|
  {
    var y := s.act[x];
    match e
    case EFull => y.pc == Taking(Plain(TryOnly)) && |y.ops| == 1 && y.ops[0].isSend && NotReady(s, x, y.ops[0])
    case EEmpty => y.pc == Taking(Plain(TryOnly)) && |y.ops| == 1 && !y.ops[0].isSend && NotReady(s, x, y.ops[0])
    case EPerm => y.pc.Taking? && |y.ops| > 0 && NotReady(s, x, y.ops[Cur(y, y.pc.why)])
               && ((y.pc.why == Plain(NoCoroutine) && |y.ops| == 1)
                   || (y.pc.why.Scan? && y.pc.why.first && !y.pc.why.canBlock && y.pc.why.k + 1 == |y.ops|))
    case EClosed => y.pc.CloseWant? && y.pc.c < |s.chans| && s.chans[y.pc.c].closed
    case ECanceled => AfterReset(y.pc) && y.cstat == Canceled
    case ETimedOut => AfterReset(y.pc) && y.cstat == TimedOut
    case EError => false
  }

  lemma {:induction false} MissCause(s: State, a: nat, s': State)
    requires Inv(s) && Miss(s, a, s') && s'.act[a].pc.Idle?
    ensures s'.act[a].pc.ret.Fail? && Cause(s, a, s'.act[a].pc.ret.e)
  {
    MissNotReady(s, a, s');
    assert ActorOk(s.act[a]);
  }

  /** Steps that may change an actor other than the one that takes them. */
  predicate Reaching(st: Step) {
    st.DoHandOff? || st.DoRefill? || st.DoTakeDirect? || st.DoCloseTake? || st.DoWakeEnd? || st.DoEndOne?
  }

  lemma {:induction false} SoloStep(s: State, a: nat, st: Step, s': State, x: nat)
    requires NextStep(s, a, st, s') && !Reaching(st) && x < |s.act| && a != x
    ensures |s'.act| == |s.act| && s'.act[x] == s.act[x]
  {
  }

  /** Others do not move an actor, and decide its own node only while it is parked and undecided. */
  ghost predicate Unmoved(y: Actor, y': Actor) {
    && y'.pc == y.pc && y'.ops == y.ops
    && (y'.cstat == y.cstat || (y.pc.Parked? && y.cstat == Waiting && (y'.cstat == Ok || y'.cstat == Closed)))
  }

  lemma {:induction false} OthersGrant(s: State, a: nat, s': State, x: nat)
    requires ListsOk(s) && (HandOff(s, a, s') || Refill(s, a, s') || TakeDirect(s, a, s')) && x < |s.act| && a != x
    ensures |s'.act| == |s.act| && Unmoved(s.act[x], s'.act[x])
  {
  }

  lemma {:induction false} OthersClose(s: State, a: nat, s': State, x: nat)
    requires ListsOk(s) && CloseTake(s, a, s') && x < |s.act| && a != x
    ensures |s'.act| == |s.act| && Unmoved(s.act[x], s'.act[x])
  {
  }

  lemma {:induction false} OthersRelease(s: State, a: nat, s': State, x: nat)
    requires (WakeEnd(s, a, s') || EndOne(s, a, s')) && x < |s.act| && a != x
    ensures |s'.act| == |s.act| && Unmoved(s.act[x], s'.act[x])
  {
  }

  lemma {:induction false} OthersStep(s: State, a: nat, st: Step, s': State, x: nat)
    requires ListsOk(s) && NextStep(s, a, st, s') && x < |s.act| && a != x
    ensures |s'.act| == |s.act| && Unmoved(s.act[x], s'.act[x])
  {
    if !Reaching(st) {
      SoloStep(s, a, st, s', x);
    } else if st.DoCloseTake? {
      OthersClose(s, a, s', x);
    } else if st.DoWakeEnd? || st.DoEndOne? {
      OthersRelease(s, a, s', x);
    } else {
      OthersGrant(s, a, s', x);
    }
  }

  predicate MayFail(st: Step) {
    st.DoMiss? || st.DoUnpark? || st.DoFinish? || st.DoCloseAcquire?
  }

  lemma {:induction false} OwnNoFail(s: State, a: nat, st: Step, s': State)
    requires NextStep(s, a, st, s') && a < |s.act| && !s.act[a].pc.Idle? && |s'.act| == |s.act| && !MayFail(st)
    ensures s'.act[a].pc.Idle? ==> !s'.act[a].pc.ret.Fail?
  {
  }

  lemma {:induction false} EndCause(s: State, a: nat, s': State)
    requires (Unpark(s, a, s') || Finish(s, a, s') || CloseAcquire(s, a, s')) && ActorOk(s.act[a])
    requires |s'.act| == |s.act| && s'.act[a].pc.Idle? && s'.act[a].pc.ret.Fail?
    ensures Cause(s, a, s'.act[a].pc.ret.e)
  {
  }

  lemma {:induction false} FailCause(s: State, a: nat, st: Step, s': State, x: nat)
    requires Inv(s) && NextStep(s, a, st, s') && x < |s.act| && !s.act[x].pc.Idle?
    requires |s'.act| == |s.act| && s'.act[x].pc.Idle? && s'.act[x].pc.ret.Fail?
    ensures Cause(s, x, s'.act[x].pc.ret.e)
  {
    assert ActorOk(s.act[x]);
    if a != x {
      OthersStep(s, a, st, s', x);
    } else if st.DoMiss? {
      MissCause(s, a, s');
    } else if MayFail(st) {
      EndCause(s, a, s');
    } else {
      OwnNoFail(s, a, st, s');
    }
  }

  // ---------------------------------------------------------------- cancels

  /** The step is a cancel, or an expired deadline, of actor x. */
  ghost predicate GivesUp(s: State, x: nat, st: Status, s': State) {
    NextStep(s, x, DoCancelWait(st), s') || NextStep(s, x, DoCancelSelect(st), s')
  }

  /** The wait of actor x has been given up with st. */
  predicate GivenUp(y: Actor, st: Status) {
    AfterReset(y.pc) && y.cstat == st
  }

  lemma {:induction false} StatusFrom(s: State, a: nat, st: Step, s': State, x: nat, c: Status)
    requires ListsOk(s) && NextStep(s, a, st, s') && x < |s.act| && |s'.act| == |s.act| && (c == Canceled || c == TimedOut)
    requires GivenUp(s'.act[x], c)
    ensures GivenUp(s.act[x], c) || GivesUp(s, x, c, s')
  {
    if a != x {
      OthersStep(s, a, st, s', x);
    } else {
      OwnStatus(s, a, st, s', c);
    }
  }

  lemma {:induction false} OwnStatus(s: State, a: nat, st: Step, s': State, c: Status)
    requires NextStep(s, a, st, s') && a < |s.act| && |s'.act| == |s.act| && (c == Canceled || c == TimedOut)
    requires GivenUp(s'.act[a], c)
    ensures GivenUp(s.act[a], c) || GivesUp(s, a, c, s')
  {
  }

  /** In some step of the call the wait of actor x was given up with c. */
  ghost predicate GivenUpIn(t: seq<State>, k: nat, m: nat, x: nat, c: Status) {
    exists j: nat :: k <= j < m && GivesUpAt(t, j, x, c)
  }

  ghost predicate GivesUpAt(t: seq<State>, j: nat, x: nat, c: Status) {
    j + 1 < |t| && GivesUp(t[j], x, c, t[j + 1])
  }

  ghost predicate GivenUpAt(t: seq<State>, m: nat, x: nat, c: Status) {
    m < |t| && x < |t[m].act| && GivenUp(t[m].act[x], c)
  }

  lemma {:induction false} GivenUpStep(t: seq<State>, p: nat, m: nat, x: nat, c: Status)
    requires Run(t) && m == p + 1 < |t| && x < |t[p].act| && GivenUpAt(t, m, x, c) && (c == Canceled || c == TimedOut)
    ensures GivenUpAt(t, p, x, c) || GivesUpAt(t, p, x, c)
  {
    RunActor(t, p, x);
    RunInv(t, p);
    var a, st := StepAt(t, p);
    StatusFrom(t[p], a, st, t[m], x, c);
  }

  /** A wait that has been given up was so in a step of the same call. */
  lemma {:induction false} GivenUpRun(t: seq<State>, k: nat, m: nat, x: nat, c: Status)
    requires Run(t) && k < m && IdleAt(t, k, x) && BusyBetween(t, k, m, x) && GivenUpAt(t, m, x, c)
    requires c == Canceled || c == TimedOut
    ensures GivenUpIn(t, k, m, x, c)
  {
    var p: nat := m - 1;
    if p == k {
      GivenUpStep(t, p, m, x, c);
    } else {
      BusyPart(t, k, p, m, x);
      GivenUpStep(t, p, m, x, c);
      if GivenUpAt(t, p, x, c) {
        GivenUpRun(t, k, p, x, c);
      }
    }
  }

  // ---------------------------------------------------------------- attempts

  /** The first attempts of a call, before anything is registered. */
  predicate FirstWhy(why: Why) {
    why.Plain? || why.first
  }

  predicate FirstPc(pc: Pc) {
    ((pc.Want? || pc.Taking?) && FirstWhy(pc.why)) || pc.Init? || pc.CloseWant?
  }

  /** How a step leads to a position among the first attempts. */
  ghost predicate Advance(s: State, x: nat, s': State)
    requires x < |s.act| && |s'.act| == |s.act|
  {
    var y, y' := s.act[x], s'.act[x];
    || y.pc.Idle?
    || (y'.ops == y.ops && (y'.pc == y.pc || (y.pc.Want? && y'.pc == Taking(y.pc.why))))
    || (y'.ops == y.ops && |y.ops| > 0 && y.pc.Taking? && y.pc.why.Scan? && y.pc.why.first && NotReady(s, x, y.ops[Cur(y, y.pc.why)])
        && var w := y.pc.why;
        if w.k + 1 < |y.ops| then y'.pc == Want(w.(k := w.k + 1)) else y'.pc == Init && w.canBlock && w.k + 1 == |y.ops|)
  }

  lemma {:induction false} OwnAdvance(s: State, a: nat, st: Step, s': State)
    requires NextStep(s, a, st, s') && a < |s.act| && |s'.act| == |s.act| && FirstPc(s'.act[a].pc) && !st.DoMiss?
    ensures Advance(s, a, s')
  {
  }

  lemma {:induction false} MissAdvance(s: State, a: nat, s': State)
    requires Inv(s) && Miss(s, a, s') && |s'.act| == |s.act| && FirstPc(s'.act[a].pc)
    ensures Advance(s, a, s')
  {
    MissNotReady(s, a, s');
    assert ActorOk(s.act[a]);
  }

  lemma {:induction false} NextAdvance(s: State, a: nat, st: Step, s': State, x: nat)
    requires Inv(s) && NextStep(s, a, st, s') && x < |s.act| && |s'.act| == |s.act| && FirstPc(s'.act[x].pc)
    ensures Advance(s, x, s')
  {
    if a != x {
      OthersStep(s, a, st, s', x);
    } else if st.DoMiss? {
      MissAdvance(s, a, s');
    } else {
      OwnAdvance(s, a, st, s');
    }
  }

  /** In some step of the call after its first, the case was not ready. */
  ghost predicate NotReadyIn(t: seq<State>, k: nat, m: nat, x: nat, op: Case) {
    exists j: nat :: k < j < m && j < |t| && NotReady(t[j], x, op)
  }

  /** The first q attempts of a scan that drew r have found their case not ready. */
  ghost predicate Tried(t: seq<State>, k: nat, m: nat, x: nat, ops: seq<Case>, r: nat, q: nat) {
    |ops| > 0 && forall i: nat :: i < q ==> NotReadyIn(t, k, m, x, ops[ScanIndex(r, i, |ops|)])
  }

  /** What the position at m says about the steps of the call since k. */
  ghost predicate Trying(t: seq<State>, k: nat, m: nat, x: nat) {
    && k < m < |t| && x < |t[m].act| && x < |t[k + 1].act|
    && var y0, y := t[k + 1].act[x], t[m].act[x];
    && y.ops == y0.ops
    && match y.pc
       case Want(why) => FirstAttempt(t, k, m, x, why)
       case Taking(why) => FirstAttempt(t, k, m, x, why)
       case Init => y0.pc.Want? && y0.pc.why.Scan? && y0.pc.why == Scan(0, y0.pc.why.r, true, true) && Tried(t, k, m, x, y.ops, y0.pc.why.r, |y.ops|)
       case CloseWant(c) => y0.pc == y.pc
       case _ => true
  }

  ghost predicate FirstAttempt(t: seq<State>, k: nat, m: nat, x: nat, why: Why)
    requires k < m < |t| && x < |t[m].act| && x < |t[k + 1].act|
  {
    match why
    case Plain(_) => t[k + 1].act[x].pc == Want(why)
    case Scan(q, r, first, canBlock) =>
      first ==> t[k + 1].act[x].pc == Want(Scan(0, r, true, canBlock)) && Tried(t, k, m, x, t[m].act[x].ops, r, q)
  }

  lemma {:induction false} TriedOn(t: seq<State>, k: nat, m: nat, m': nat, x: nat, ops: seq<Case>, r: nat, q: nat)
    requires Tried(t, k, m, x, ops, r, q) && m <= m'
    ensures Tried(t, k, m', x, ops, r, q)
  {
    forall i: nat | i < q ensures NotReadyIn(t, k, m', x, ops[ScanIndex(r, i, |ops|)]) {
      var j: nat :| k < j < m && j < |t| && NotReady(t[j], x, ops[ScanIndex(r, i, |ops|)]);
    }
  }

  lemma {:induction false} TriedMore(t: seq<State>, k: nat, m: nat, x: nat, ops: seq<Case>, r: nat, q: nat)
    requires Tried(t, k, m, x, ops, r, q) && k < m < |t| && NotReady(t[m], x, ops[ScanIndex(r, q, |ops|)])
    ensures Tried(t, k, m + 1, x, ops, r, q + 1)
  {
    TriedOn(t, k, m, m + 1, x, ops, r, q);
  }

  lemma {:induction false} TryingOn(t: seq<State>, k: nat, p: nat, m: nat, x: nat)
    requires Trying(t, k, p, x) && m == p + 1 < |t| && |t[m].act| == |t[p].act| && BusyAt(t, p, x)
    requires FirstPc(t[m].act[x].pc) && Advance(t[p], x, t[m])
    ensures Trying(t, k, m, x)
  {
    var y, y', y0 := t[p].act[x], t[m].act[x], t[k + 1].act[x];
    if y.pc.Taking? && y'.pc != y.pc {
      TriedMore(t, k, p, x, y.ops, y.pc.why.r, y.pc.why.k);
    } else if y.pc.Init? {
      TriedOn(t, k, p, m, x, y.ops, y0.pc.why.r, |y.ops|);
    } else if !y.pc.CloseWant? && y.pc.why.Scan? {
      TriedOn(t, k, p, m, x, y.ops, y.pc.why.r, y.pc.why.k);
    }
  }

  lemma {:induction false} TryingStep(t: seq<State>, k: nat, p: nat, m: nat, x: nat)
    requires Run(t) && Trying(t, k, p, x) && m == p + 1 < |t| && BusyAt(t, p, x) && BusyAt(t, m, x)
    ensures Trying(t, k, m, x)
  {
    RunActor(t, p, x);
    if FirstPc(t[m].act[x].pc) {
      RunInv(t, p);
      var a, st := StepAt(t, p);
      NextAdvance(t[p], a, st, t[m], x);
      TryingOn(t, k, p, m, x);
    }
  }

  lemma {:induction false} StartPc(s: State, a: nat, st: Step, s': State, x: nat)
    requires NextStep(s, a, st, s') && x < |s.act| && |s'.act| == |s.act| && s.act[x].pc.Idle? && !s'.act[x].pc.Idle?
    ensures var y := s'.act[x];
      || y.pc.CloseWant?
      || (y.pc.Want? && |y.ops| > 0 && FirstWhy(y.pc.why) && (y.pc.why.Scan? ==> y.pc.why.k == 0))
  {
  }

  lemma {:induction false} TryingStart(t: seq<State>, k: nat, m: nat, x: nat)
    requires Run(t) && m == k + 1 < |t| && IdleAt(t, k, x) && BusyAt(t, m, x)
    ensures Trying(t, k, m, x)
  {
    RunActor(t, k, x);
    var a, st := StepAt(t, k);
    StartPc(t[k], a, st, t[m], x);
  }

  lemma {:induction false} TryingRun(t: seq<State>, k: nat, m: nat, x: nat)
    requires Run(t) && k < m < |t| && IdleAt(t, k, x) && BusyBetween(t, k, m, x) && BusyAt(t, m, x)
    ensures Trying(t, k, m, x)
  {
    if m == k + 1 {
      TryingStart(t, k, m, x);
    } else {
      var p: nat := m - 1;
      BusyPart(t, k, p, m, x);
      TryingRun(t, k, p, x);
      TryingStep(t, k, p, m, x);
    }
  }

  // ---------------------------------------------------------------- the answers

  /** The call was refused in its first step with e, or given up with c in one of its steps. */
  ghost predicate Stopped(t: seq<State>, k: nat, i: nat, x: nat, e: Err, c: Status) {
    (i == k + 1 < |t| && Refuse(t[k], x, e, t[k + 1])) || GivenUpIn(t, k, i, x, c)
  }

  /** The channel is closed in some step of the call. */
  ghost predicate ClosedBefore(t: seq<State>, k: nat, i: nat, c: nat) {
    exists j: nat :: k < j < i && j < |t| && c < |t[j].chans| && t[j].chans[c].closed
  }

  /**
   What a failure means. FULL and EMPTY: a try whose case was not ready. PERM: an operation off a
   coroutine whose case was not ready, or a select there all of whose attempts found theirs not
   ready. CLOSED: a close of a closed channel. CANCELED and TIMEDOUT: the call was stopped for
   that reason. There is no other failure.
   */
  ghost predicate Explained(t: seq<State>, k: nat, i: nat, x: nat, e: Err)
    requires k < i < |t| && x < |t[i].act| && x < |t[k + 1].act|
  {
    var ops, pc := t[i].act[x].ops, t[k + 1].act[x].pc;
    match e
    case EFull => pc == Want(Plain(TryOnly)) && |ops| == 1 && ops[0].isSend && NotReadyIn(t, k, i, x, ops[0])
    case EEmpty => pc == Want(Plain(TryOnly)) && |ops| == 1 && !ops[0].isSend && NotReadyIn(t, k, i, x, ops[0])
    case EPerm =>
      || (pc == Want(Plain(NoCoroutine)) && |ops| == 1 && NotReadyIn(t, k, i, x, ops[0]))
      || (pc.Want? && pc.why.Scan? && pc.why == Scan(0, pc.why.r, true, false) && Tried(t, k, i, x, ops, pc.why.r, |ops|))
    case EClosed => pc.CloseWant? && ClosedBefore(t, k, i, pc.c)
    case ECanceled => Stopped(t, k, i, x, ECanceled, Canceled)
    case ETimedOut => Stopped(t, k, i, x, ETimedOut, TimedOut)
    case EError => false
  }

  lemma {:induction false} CauseAt(t: seq<State>, p: nat, i: nat, x: nat)
    requires Run(t) && i == p + 1 && BusyAt(t, p, x) && IdleAt(t, i, x) && t[i].act[x].pc.ret.Fail?
    ensures |t[i].act| == |t[p].act| && t[i].act[x].ops == t[p].act[x].ops && Cause(t[p], x, t[i].act[x].pc.ret.e)
  {
    RunActor(t, p, x);
    RunInv(t, p);
    var a, st := StepAt(t, p);
    FailCause(t[p], a, st, t[i], x);
  }

  lemma {:induction false} CauseExplains(t: seq<State>, k: nat, p: nat, i: nat, x: nat, e: Err)
    requires Trying(t, k, p, x) && i == p + 1 < |t| && |t[i].act| == |t[p].act| && t[i].act[x].ops == t[p].act[x].ops
    requires Cause(t[p], x, e) && e != ECanceled && e != ETimedOut
    ensures Explained(t, k, i, x, e)
  {
    var y := t[p].act[x];
    if e == EPerm && y.pc.why.Scan? {
      TriedMore(t, k, p, x, y.ops, y.pc.why.r, y.pc.why.k);
    }
  }

  /** Every failure of every call has its reason in that call. */
  lemma {:induction false} FailedCall(t: seq<State>, k: nat, i: nat, x: nat)
    requires Run(t) && Call(t, k, i, x) && t[i].act[x].pc.ret.Fail?
    ensures x < |t[k + 1].act| && Explained(t, k, i, x, t[i].act[x].pc.ret.e)
  {
    var e := t[i].act[x].pc.ret.e;
    if i > k + 1 {
      var p: nat := i - 1;
      BusyPart(t, k, p, i, x);
      TryingRun(t, k, p, x);
      CauseAt(t, p, i, x);
      if e == ECanceled {
        GivenUpRun(t, k, p, x, Canceled);
      } else if e == ETimedOut {
        GivenUpRun(t, k, p, x, TimedOut);
      } else {
        CauseExplains(t, k, p, i, x, e);
      }
    }
  }

  /** A select goes on to register only after every attempt of its scan has found its case not ready. */
  lemma {:induction false} BlocksAfterScan(t: seq<State>, k: nat, m: nat, x: nat)
    requires Run(t) && k < m < |t| && IdleAt(t, k, x) && BusyBetween(t, k, m, x) && BusyAt(t, m, x) && t[m].act[x].pc.Init?
    ensures x < |t[k + 1].act| && t[k + 1].act[x].pc.Want? && t[k + 1].act[x].pc.why.Scan?
    ensures Tried(t, k, m, x, t[m].act[x].ops, t[k + 1].act[x].pc.why.r, |t[m].act[x].ops|)
  {
    TryingRun(t, k, m, x);
  }

  // ---------------------------------------------------------------- a given-up wait fails

  function ErrorOf(c: Status): Err {
    if c == Canceled then ECanceled else ETimedOut
  }

  predicate WaitGivenUp(y: Actor, c: Status) {
    y.pc.Parked? && y.cstat == c && (c == Canceled || c == TimedOut)
  }

  lemma {:induction false} GivenUpStays(s: State, a: nat, st: Step, s': State, x: nat, c: Status)
    requires NextStep(s, a, st, s') && ListsOk(s) && x < |s.act| && WaitGivenUp(s.act[x], c)
    ensures |s'.act| == |s.act|
    ensures WaitGivenUp(s'.act[x], c) || s'.act[x].pc == Idle(Fail(ErrorOf(c)))
  {
    if a != x {
      OthersStep(s, a, st, s', x);
    }
  }

  lemma {:induction false} GivenUpNext(t: seq<State>, p: nat, i: nat, x: nat, c: Status)
    requires Run(t) && i == p + 1 < |t| && x < |t[p].act| && WaitGivenUp(t[p].act[x], c)
    ensures |t[i].act| == |t[p].act|
    ensures WaitGivenUp(t[i].act[x], c) || t[i].act[x].pc == Idle(Fail(ErrorOf(c)))
  {
    RunInv(t, p);
    var a, st := StepAt(t, p);
    GivenUpStays(t[p], a, st, t[i], x, c);
  }

  lemma {:induction false} GivenUpUntil(t: seq<State>, j: nat, i: nat, x: nat, c: Status)
    requires Run(t) && j < i < |t| && x < |t[j].act| && WaitGivenUp(t[j].act[x], c) && BusyBetween(t, j, i, x)
    ensures |t[i].act| == |t[j].act|
    ensures WaitGivenUp(t[i].act[x], c) || t[i].act[x].pc == Idle(Fail(ErrorOf(c)))
  {
    var p: nat := i - 1;
    if j < p {
      BusyPart(t, j, p, i, x);
      GivenUpUntil(t, j, p, x, c);
    }
    GivenUpNext(t, p, i, x, c);
  }

  lemma {:induction false} CancelGivesUp(s: State, x: nat, c: Status, s': State)
    requires CancelWait(s, x, c, s')
    ensures x < |s'.act| && WaitGivenUp(s'.act[x], c)
  {
  }

  lemma {:induction false} BusyRest(t: seq<State>, k: nat, m: nat, i: nat, x: nat)
    requires BusyBetween(t, k, i, x) && k <= m
    ensures BusyBetween(t, m, i, x)
  {
  }

  /** A plain wait that is canceled, or whose deadline passes, while it is undecided fails with that error. */
  lemma {:induction false} GivenUpWaitFails(t: seq<State>, k: nat, j: nat, i: nat, x: nat, c: Status)
    requires Run(t) && Call(t, k, i, x) && k < j < i && CancelWait(t[j], x, c, t[j + 1])
    ensures t[i].act[x].pc.ret == Fail(ErrorOf(c))
  {
    var m := j + 1;
    CancelGivesUp(t[j], x, c, t[m]);
    BusyRest(t, k, m, i, x);
    if m < i {
      GivenUpUntil(t, m, i, x, c);
    }
  }

  // ---------------------------------------------------------------- close

  /** In some step of the call the channel went from open to closed. */
  ghost predicate ShutIn(t: seq<State>, k: nat, m: nat, c: nat) {
    exists j: nat :: k < j < m && ShutAt(t, j, c)
  }

  ghost predicate ShutAt(t: seq<State>, j: nat, c: nat) {
    j + 1 < |t| && Shuts(t[j], t[j + 1], c)
  }

  ghost predicate Shuts(s: State, s': State, c: nat) {
    c < |s.chans| && c < |s'.chans| && !s.chans[c].closed && s'.chans[c].closed
  }

  predicate ClosePc(pc: Pc) {
    pc.Closing? || pc.Ending?
  }

  /** A call in its closing part is a close that has closed its channel. */
  ghost predicate ClosedBy(t: seq<State>, k: nat, m: nat, x: nat) {
    && k < m < |t| && x < |t[m].act| && x < |t[k + 1].act|
    && var pc0, pc := t[k + 1].act[x].pc, t[m].act[x].pc;
    && (ClosePc(pc) ==> pc0.CloseWant? && ShutIn(t, k, m, pc0.c))
    && (pc.Closing? ==> pc.c == pc0.c)
  }

  lemma {:induction false} CloseFrom(s: State, a: nat, st: Step, s': State, x: nat)
    requires ListsOk(s) && NextStep(s, a, st, s') && x < |s.act| && |s'.act| == |s.act| && ClosePc(s'.act[x].pc)
    ensures var pc, pc' := s.act[x].pc, s'.act[x].pc;
      || (ClosePc(pc) && (pc'.Closing? ==> pc.Closing? && pc.c == pc'.c))
      || (pc.CloseWant? && pc'.Closing? && pc'.c == pc.c && Shuts(s, s', pc.c))
  {
    if a != x {
      OthersStep(s, a, st, s', x);
    }
  }

  lemma {:induction false} ShutOn(t: seq<State>, k: nat, p: nat, m: nat, c: nat)
    requires ShutIn(t, k, p, c) && p <= m
    ensures ShutIn(t, k, m, c)
  {
    var j: nat :| k < j < p && ShutAt(t, j, c);
  }

  lemma {:induction false} ClosedByStep(t: seq<State>, k: nat, p: nat, m: nat, x: nat)
    requires Run(t) && ClosedBy(t, k, p, x) && Trying(t, k, p, x) && m == p + 1 < |t|
    ensures ClosedBy(t, k, m, x)
  {
    RunActor(t, p, x);
    if ClosePc(t[m].act[x].pc) {
      RunInv(t, p);
      var a, st := StepAt(t, p);
      CloseFrom(t[p], a, st, t[m], x);
      if ClosePc(t[p].act[x].pc) {
        ShutOn(t, k, p, m, t[k + 1].act[x].pc.c);
      } else {
        assert ShutAt(t, p, t[k + 1].act[x].pc.c);
      }
    }
  }

  lemma {:induction false} ClosedByRun(t: seq<State>, k: nat, m: nat, x: nat)
    requires Run(t) && k < m < |t| && IdleAt(t, k, x) && BusyBetween(t, k, m, x) && BusyAt(t, m, x)
    ensures ClosedBy(t, k, m, x)
  {
    if m == k + 1 {
      RunActor(t, k, x);
      var a, st := StepAt(t, k);
      StartPc(t[k], a, st, t[m], x);
    } else {
      var p: nat := m - 1;
      BusyPart(t, k, p, m, x);
      ClosedByRun(t, k, p, x);
      TryingRun(t, k, p, x);
      ClosedByStep(t, k, p, m, x);
    }
  }

  lemma {:induction false} QuietFrom(s: State, a: nat, st: Step, s': State, x: nat)
    requires ListsOk(s) && NextStep(s, a, st, s') && x < |s.act| && |s'.act| == |s.act|
    requires !s.act[x].pc.Idle? && s'.act[x].pc == Idle(Quiet)
    ensures s.act[x].pc.Ending?
  {
    if a != x {
      OthersStep(s, a, st, s', x);
    }
  }

  lemma {:induction false} QuietAt(t: seq<State>, p: nat, i: nat, x: nat)
    requires Run(t) && i == p + 1 && BusyAt(t, p, x) && IdleAt(t, i, x) && t[i].act[x].pc.ret == Quiet
    ensures t[p].act[x].pc.Ending?
  {
    RunActor(t, p, x);
    RunInv(t, p);
    var a, st := StepAt(t, p);
    QuietFrom(t[p], a, st, t[i], x);
  }

  /** A call that answers neither with an index nor with an error is a close, and it closed its channel. */
  lemma {:induction false} QuietCall(t: seq<State>, k: nat, i: nat, x: nat)
    requires Run(t) && Call(t, k, i, x) && t[i].act[x].pc.ret == Quiet
    ensures x < |t[k + 1].act| && t[k + 1].act[x].pc.CloseWant? && ShutIn(t, k, i, t[k + 1].act[x].pc.c)
  {
    if i > k + 1 {
      var p: nat := i - 1;
      BusyPart(t, k, p, i, x);
      ClosedByRun(t, k, p, x);
      QuietAt(t, p, i, x);
      ShutOn(t, k, p, i, t[k + 1].act[x].pc.c);
    }
  }
}
