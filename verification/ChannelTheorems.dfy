/** What the channel machine guarantees in every run: order, conservation, one effect per call, closed windows. */
module ChannelTheorems {
  import opened Channels
  import opened ChannelInvariant
  import opened ChannelFifo

  // ---------------------------------------------------------------- order and conservation

  lemma {:induction false} StepAt(t: seq<State>, j: nat) returns (a: nat, st: Step)
    requires Run(t) && j + 1 < |t|
    ensures NextStep(t[j], a, st, t[j + 1])
  {
    assert Next(t[j], t[j + 1]);
    a, st :| NextStep(t[j], a, st, t[j + 1]);
  }

  /** Every transition of every run moves every channel like a FIFO queue. */
  lemma {:induction false} RunIsFifo(t: seq<State>, i: nat, c: nat)
    requires Run(t) && i + 1 < |t| && c < |t[i].chans|
    ensures |t[i + 1].chans| == |t[i].chans| && FifoStep(t[i], t[i + 1], c)
  {
    RunInv(t, i);
    var a, st := StepAt(t, i);
    NextIsFifo(t[i], a, st, t[i + 1], c);
  }

  /** The value that a send, or a receive, of channel c completed with Ok has moved in this step, if one did. */
  ghost function DoneIn(s: State, s': State, c: nat, send: bool): seq<Val> {
    if f :| On(s, s', c, send, f) then [Moved(s', f)] else []
  }

  /** The values that the sends, or the receives, of channel c completed with Ok have moved in the first k steps, in order. */
  ghost function Done(t: seq<State>, k: nat, c: nat, send: bool): seq<Val>
    requires k < |t|
  {
    if k == 0 then [] else Done(t, k - 1, c, send) + DoneIn(t[k - 1], t[k], c, send)
  }

  lemma {:induction false} LedgerStep(s: State, s': State, c: nat)
    requires c < |s.chans| && |s'.chans| == |s.chans| && Ledger(s, s', c)
    ensures Passed(s'.chans[c]) == Passed(s.chans[c]) + DoneIn(s, s', c, true)
    ensures s'.chans[c].rcvd == s.chans[c].rcvd + DoneIn(s, s', c, false)
  {
  }

  lemma {:induction false} RunLedger(t: seq<State>, j: nat, c: nat)
    requires Run(t) && j + 1 < |t| && c < |t[j].chans|
    ensures |t[j + 1].chans| == |t[j].chans|
    ensures Passed(t[j + 1].chans[c]) == Passed(t[j].chans[c]) + DoneIn(t[j], t[j + 1], c, true)
    ensures t[j + 1].chans[c].rcvd == t[j].chans[c].rcvd + DoneIn(t[j], t[j + 1], c, false)
  {
    RunIsFifo(t, j, c);
    LedgerStep(t[j], t[j + 1], c);
  }

  lemma {:induction false} LedgerStart(t: seq<State>, c: nat)
    requires Run(t) && c < |t[0].chans|
    ensures Passed(t[0].chans[c]) == [] && t[0].chans[c].rcvd == []
  {
  }

  lemma {:induction false} LedgerNext(t: seq<State>, p: nat, k: nat, c: nat)
    requires Run(t) && k == p + 1 < |t| && c < |t[p].chans|
    requires Passed(t[p].chans[c]) == Done(t, p, c, true) && t[p].chans[c].rcvd == Done(t, p, c, false)
    ensures |t[k].chans| == |t[p].chans|
    ensures Passed(t[k].chans[c]) == Done(t, k, c, true) && t[k].chans[c].rcvd == Done(t, k, c, false)
  {
    RunLedger(t, p, c);
  }

  lemma {:induction false} LedgerRun(t: seq<State>, k: nat, c: nat)
    requires Run(t) && k < |t| && c < |t[0].chans|
    ensures |t[k].chans| == |t[0].chans|
    ensures Passed(t[k].chans[c]) == Done(t, k, c, true) && t[k].chans[c].rcvd == Done(t, k, c, false)
  {
    if k == 0 {
      LedgerStart(t, c);
    } else {
      var p: nat := k - 1;
      LedgerRun(t, p, c);
      LedgerNext(t, p, k, c);
    }
  }

  /**
   Order and conservation: at every point of every run, what the completed receives of a
   channel got, followed by what is buffered, is exactly what its completed sends sent, in
   order of completion.
   */
  lemma {:induction false} FifoInEveryRun(t: seq<State>, i: nat, c: nat)
    requires Run(t) && i < |t| && c < |t[0].chans|
    ensures |t[i].chans| == |t[0].chans|
    ensures var h := t[i].chans[c];
      && Done(t, i, c, false) + h.ring == Done(t, i, c, true)
      && |h.ring| <= h.cap
      && (forall n :: LiveIn(t[i], h.receivers, n) ==> h.ring == [])
      && (forall n, m :: LiveIn(t[i], h.receivers, n) && LiveIn(t[i], h.senders, m) ==> n.cr == m.cr)
      && (h.lock.Free? ==> forall m :: LiveIn(t[i], h.senders, m) ==> |h.ring| == h.cap)
      && (h.lock.Free? && h.closed ==> h.senders == [] && h.receivers == [])
  {
    LedgerRun(t, i, c);
    RunInv(t, i);
    assert ChanOk(t[i], t[i].chans[c]);
  }

  /**
   Nobody waits for a partner that is there: on an unlocked channel, an undecided receiver means
   an open, empty channel without an undecided sender of another actor, and an undecided sender
   an open, full one without an undecided receiver of another actor.
   */
  lemma {:induction false} NoMissedPartner(t: seq<State>, i: nat, n: Node, m: Node)
    requires Run(t) && i < |t| && n.cr < |t[i].act| && Undecided(t[i].act[n.cr], n.slot)
    ensures var p := PlaceOf(t[i].act[n.cr], n.slot);
      && p.c < |t[i].chans|
      && (t[i].chans[p.c].lock.Free? ==>
            var h := t[i].chans[p.c];
            && !h.closed
            && (if p.isSend then |h.ring| == h.cap else h.ring == [])
            && (m.cr < |t[i].act| && Undecided(t[i].act[m.cr], m.slot) && PlaceOf(t[i].act[m.cr], m.slot) == At(p.c, !p.isSend)
                ==> m.cr == n.cr))
  {
    RunInv(t, i);
    var s, p := t[i], PlaceOf(t[i].act[n.cr], n.slot);
    assert Linked(s, n, p);
    assert LiveIn(s, List(s.chans[p.c], p.isSend), n);
    assert ChanOk(s, s.chans[p.c]);
    if m.cr < |s.act| && Undecided(s.act[m.cr], m.slot) && PlaceOf(s.act[m.cr], m.slot) == At(p.c, !p.isSend) {
      assert Linked(s, m, PlaceOf(s.act[m.cr], m.slot));
      assert LiveIn(s, List(s.chans[p.c], !p.isSend), m);
    }
  }

  // ---------------------------------------------------------------- calls

  /** What a step may do to an actor: nothing, start a call, or complete one case of it. */
  ghost predicate ActorStep(s: State, s': State, x: nat)
    requires x < |s.act| && |s'.act| == |s.act|
  {
    var y, y' := s.act[x], s'.act[x];
    || (y'.fx == y.fx && y'.got == y.got && y'.ops == y.ops && (y.pc.Idle? && !y'.pc.Idle? ==> y.fx == []))
    || (y.pc.Idle? && y'.fx == [])
    || CompletesAs(s, s', x)
  }

  ghost predicate CompletesAs(s: State, s': State, x: nat)
    requires x < |s.act| && |s'.act| == |s.act|
  {
    var y, y' := s.act[x], s'.act[x];
    && !y.pc.Idle? && y'.ops == y.ops && |y'.fx| == |y.fx| + 1 && y'.fx[..|y.fx|] == y.fx
    && var f := y'.fx[|y.fx|];
    && f.idx < |y.ops| && y.ops[f.idx].ch < |s.chans|
    && (f.st == Ok || (f.st == Closed && y'.got == y.got && FoundClosed(s, y.ops[f.idx])))
  }

  /** The channel of the case is closed and, for a receive, there is nothing left to get from it. */
  ghost predicate FoundClosed(s: State, op: Case) {
    op.ch < |s.chans| && s.chans[op.ch].closed && (!op.isSend ==> Queue(s, op.ch) == [])
  }

  lemma {:induction false} StartActor(s: State, a: nat, st: Step, s': State, x: nat)
    requires NextStep(s, a, st, s') && x < |s.act| && (st.DoStartOp? || st.DoRefuse? || st.DoStartSelect? || st.DoStartClose?)
    ensures |s'.act| == |s.act| && ActorStep(s, s', x)
  {
  }

  lemma {:induction false} CalmActor(s: State, a: nat, st: Step, s': State, x: nat)
    requires NextStep(s, a, st, s') && x < |s.act| && !IsMove(st) && !st.DoFindClosed? && !st.DoCloseTake?
    requires !st.DoStartOp? && !st.DoRefuse? && !st.DoStartSelect? && !st.DoStartClose?
    ensures |s'.act| == |s.act| && ActorStep(s, s', x)
  {
  }

  lemma {:induction false} FindClosedActor(s: State, a: nat, s': State, x: nat)
    requires FindClosed(s, a, s') && x < |s.act|
    ensures |s'.act| == |s.act| && ActorStep(s, s', x)
  {
  }

  lemma {:induction false} CloseTakeActor(s: State, a: nat, s': State, x: nat)
    requires ActorsOk(s) && ListsOk(s) && LocksOk(s) && ChansOk(s) && CloseTake(s, a, s') && x < |s.act|
    ensures |s'.act| == |s.act| && ActorStep(s, s', x)
  {
    var c := s.act[a].pc.c;
    var h := s.chans[c];
    var n := List(h, h.senders != [])[0];
    assert Holds(s.act[a], c) && ChanOk(s, h);
    assert n in List(h, h.senders != []);
    if Live(s, n) {
      HeadUndecided(s, c, h.senders != [], n);
      if h.senders == [] {
        assert LiveIn(s, h.receivers, n);
        assert Queue(s, c) == [];
      }
    }
  }

  lemma {:induction false} AttemptActor(s: State, a: nat, s': State, x: nat)
    requires ActorsOk(s) && (PushRing(s, a, s') || PopRing(s, a, s')) && x < |s.act|
    ensures |s'.act| == |s.act| && ActorStep(s, s', x)
  {
  }

  lemma {:induction false} HandOffActor(s: State, a: nat, s': State, x: nat)
    requires ActorsOk(s) && ListsOk(s) && HandOff(s, a, s') && x < |s.act|
    ensures |s'.act| == |s.act| && ActorStep(s, s', x)
  {
    var c := CurCase(s, a).ch;
    assert LiveIn(s, List(s.chans[c], false), s.chans[c].receivers[0]);
    HeadUndecided(s, c, false, s.chans[c].receivers[0]);
  }

  lemma {:induction false} TakenActor(s: State, a: nat, s': State, x: nat)
    requires ActorsOk(s) && ListsOk(s) && (Refill(s, a, s') || TakeDirect(s, a, s')) && x < |s.act|
    ensures |s'.act| == |s.act| && ActorStep(s, s', x)
  {
    var c := CurCase(s, a).ch;
    assert LiveIn(s, List(s.chans[c], true), s.chans[c].senders[0]);
    HeadUndecided(s, c, true, s.chans[c].senders[0]);
  }

  lemma {:induction false} NextActor(s: State, a: nat, st: Step, s': State, x: nat)
    requires Inv(s) && NextStep(s, a, st, s') && x < |s.act|
    ensures |s'.act| == |s.act| && ActorStep(s, s', x)
  {
    if st.DoPushRing? || st.DoPopRing? {
      AttemptActor(s, a, s', x);
    } else if st.DoHandOff? {
      HandOffActor(s, a, s', x);
    } else if st.DoRefill? || st.DoTakeDirect? {
      TakenActor(s, a, s', x);
    } else if st.DoFindClosed? {
      FindClosedActor(s, a, s', x);
    } else if st.DoCloseTake? {
      CloseTakeActor(s, a, s', x);
    } else if st.DoStartOp? || st.DoRefuse? || st.DoStartSelect? || st.DoStartClose? {
      StartActor(s, a, st, s', x);
    } else {
      CalmActor(s, a, st, s', x);
    }
  }

  lemma {:induction false} ClosedStays(s: State, a: nat, st: Step, s': State, c: nat)
    requires NextStep(s, a, st, s') && c < |s.chans| && s.chans[c].closed
    ensures |s'.chans| == |s.chans| && s'.chans[c].closed
  {
  }

  lemma {:induction false} RunActor(t: seq<State>, j: nat, x: nat)
    requires Run(t) && j + 1 < |t| && x < |t[j].act|
    ensures |t[j + 1].act| == |t[j].act| && ActorStep(t[j], t[j + 1], x)
  {
    RunInv(t, j);
    var a, st := StepAt(t, j);
    NextActor(t[j], a, st, t[j + 1], x);
  }

  ghost predicate IdleAt(t: seq<State>, m: nat, x: nat) {
    m < |t| && x < |t[m].act| && t[m].act[x].pc.Idle?
  }

  ghost predicate BusyAt(t: seq<State>, m: nat, x: nat) {
    m < |t| && x < |t[m].act| && !t[m].act[x].pc.Idle?
  }

  ghost predicate BusyBetween(t: seq<State>, k: nat, m: nat, x: nat) {
    forall i :: k < i < m ==> BusyAt(t, i, x)
  }

  /** One call: the actor leaves Idle in step k and is back at i for the first time, or is refused in step k. */
  ghost predicate Call(t: seq<State>, k: nat, i: nat, x: nat) {
    && k < i && IdleAt(t, k, x) && IdleAt(t, i, x) && BusyBetween(t, k, i, x)
    && (i == k + 1 ==> RefusedAt(t, k, x))
  }

  ghost predicate Refused(s: State, x: nat, s': State) {
    exists e :: Refuse(s, x, e, s')
  }

  /** s_pre_block fails the call before it starts. */
  ghost predicate RefusedAt(t: seq<State>, k: nat, x: nat) {
    k + 1 < |t| && Refused(t[k], x, t[k + 1])
  }

  /** Step j completes no case of actor x with Ok. */
  ghost predicate NoOkAt(t: seq<State>, j: nat, x: nat) {
    j + 1 < |t| && forall i: nat :: !Completes(t[j], t[j + 1], Fin(x, i))
  }

  /** Step j completed the one case that the actor's record at m names. */
  ghost predicate DoneAt(t: seq<State>, j: nat, m: nat, x: nat) {
    && j + 1 < |t| && m < |t| && x < |t[j].act| && |t[j + 1].act| == |t[j].act| && x < |t[m].act|
    && CompletesAs(t[j], t[j + 1], x) && t[j].act[x].fx == []
    && t[m].act[x].fx == t[j + 1].act[x].fx && t[m].act[x].ops == t[j].act[x].ops && t[m].act[x].got == t[j + 1].act[x].got
  }

  ghost predicate QuietBut(t: seq<State>, k: nat, m: nat, x: nat, j: int) {
    forall i: nat :: k <= i < m && i != j ==> NoOkAt(t, i, x)
  }

  /** How far the call that began in step k has come at m. */
  ghost predicate CallState(t: seq<State>, k: nat, m: nat, x: nat) {
    && m < |t| && x < |t[m].act|
    && ((t[m].act[x].fx == [] && QuietBut(t, k, m, x, -1))
        || exists j: nat :: k <= j < m && DoneAt(t, j, m, x) && QuietBut(t, k, m, x, j))
  }

  lemma {:induction false} KeptNoOk(t: seq<State>, m: nat, x: nat)
    requires m + 1 < |t| && x < |t[m].act| && |t[m + 1].act| == |t[m].act|
    requires t[m + 1].act[x].fx == t[m].act[x].fx || t[m + 1].act[x].fx == []
          || (|t[m + 1].act[x].fx| == |t[m].act[x].fx| + 1 && t[m + 1].act[x].fx[|t[m].act[x].fx|].st == Closed)
    ensures NoOkAt(t, m, x)
  {
  }

  /** A further step of the call that completes nothing. */
  lemma {:induction false} CallKept(t: seq<State>, k: nat, m: nat, x: nat)
    requires CallState(t, k, m, x) && k < m && m + 1 < |t| && |t[m + 1].act| == |t[m].act| && NoOkAt(t, m, x)
    requires var y, y' := t[m].act[x], t[m + 1].act[x]; y'.fx == y.fx && y'.got == y.got && y'.ops == y.ops
    ensures CallState(t, k, m + 1, x)
  {
    if t[m].act[x].fx == [] && QuietBut(t, k, m, x, -1) {
      assert QuietBut(t, k, m + 1, x, -1);
    } else {
      var j: nat :| k <= j < m && DoneAt(t, j, m, x) && QuietBut(t, k, m, x, j);
      assert DoneAt(t, j, m + 1, x) && QuietBut(t, k, m + 1, x, j);
    }
  }

  lemma {:induction false} CallStep(t: seq<State>, k: nat, m: nat, m': nat, x: nat)
    requires Run(t) && CallState(t, k, m, x) && k < m && m' == m + 1 < |t| && BusyAt(t, m, x)
    ensures CallState(t, k, m', x)
  {
    RunActor(t, m, x);
    AtMostOneEffect(t, m + 1, x);
    if CompletesAs(t[m], t[m + 1], x) {
      assert t[m].act[x].fx == [];
      assert QuietBut(t, k, m, x, -1);
      assert DoneAt(t, m, m + 1, x) && QuietBut(t, k, m + 1, x, m);
    } else {
      KeptNoOk(t, m, x);
      CallKept(t, k, m, x);
    }
  }

  lemma {:induction false} CallStart(t: seq<State>, k: nat, m: nat, x: nat)
    requires Run(t) && m == k + 1 < |t| && IdleAt(t, k, x) && BusyAt(t, m, x)
    ensures CallState(t, k, m, x)
  {
    RunActor(t, k, x);
    KeptNoOk(t, k, x);
    assert QuietBut(t, k, k + 1, x, -1);
  }

  lemma {:induction false} BusyPart(t: seq<State>, k: nat, p: nat, m: nat, x: nat)
    requires BusyBetween(t, k, m, x) && k < p < m
    ensures BusyBetween(t, k, p, x) && BusyAt(t, p, x)
  {
  }

  lemma {:induction false} CallRun(t: seq<State>, k: nat, m: nat, x: nat)
    requires Run(t) && k < m < |t| && IdleAt(t, k, x) && BusyAt(t, k + 1, x) && BusyBetween(t, k, m, x)
    ensures CallState(t, k, m, x)
  {
    if m == k + 1 {
      CallStart(t, k, m, x);
    } else {
      var p: nat := m - 1;
      BusyPart(t, k, p, m, x);
      CallRun(t, k, p, x);
      CallStep(t, k, p, m, x);
    }
  }

  /** Step j moved the value of case idx of the call: sent values got past parking, received ones left the queue for the caller. */
  ghost predicate MovedAt(t: seq<State>, j: nat, x: nat, idx: nat, y: Actor) {
    && j + 1 < |t| && Completes(t[j], t[j + 1], Fin(x, idx)) && t[j].act[x].ops == y.ops && idx < |y.ops|
    && var op := y.ops[idx];
    && op.ch < |t[j].chans| && |t[j + 1].chans| == |t[j].chans| && FifoStep(t[j], t[j + 1], op.ch)
    && var h, h' := t[j].chans[op.ch], t[j + 1].chans[op.ch];
    && (if op.isSend then Passed(h') == Passed(h) + [op.val] else h'.rcvd == h.rcvd + [y.got])
  }

  lemma {:induction false} DoneMoved(t: seq<State>, j: nat, m: nat, x: nat)
    requires Run(t) && DoneAt(t, j, m, x) && t[m].act[x].fx[0].st == Ok
    ensures MovedAt(t, j, x, t[m].act[x].fx[0].idx, t[m].act[x])
  {
    var f := Fin(x, t[m].act[x].fx[0].idx);
    assert Completes(t[j], t[j + 1], f);
    RunInv(t, j);
    assert ActorOk(t[j].act[x]) && OpsOk(t[j].act[x], |t[j].chans|);
    var op := t[j].act[x].ops[f.i];
    RunIsFifo(t, j, op.ch);
    assert On(t[j], t[j + 1], op.ch, op.isSend, f);
  }

  lemma {:induction false} ClosedNext(t: seq<State>, p: nat, m: nat, c: nat)
    requires Run(t) && m == p + 1 < |t| && c < |t[p].chans| && t[p].chans[c].closed
    ensures |t[m].chans| == |t[p].chans| && t[m].chans[c].closed
  {
    var a, st := StepAt(t, p);
    ClosedStays(t[p], a, st, t[m], c);
  }

  /** A channel that was closed stays so. */
  lemma {:induction false} ClosedRun(t: seq<State>, j: nat, m: nat, c: nat)
    requires Run(t) && j <= m < |t| && c < |t[j].chans| && t[j].chans[c].closed
    ensures |t[m].chans| == |t[j].chans| && t[m].chans[c].closed
  {
    if j < m {
      var p: nat := m - 1;
      ClosedRun(t, j, p, c);
      ClosedNext(t, p, m, c);
    }
  }

  /** In some step of the call the case was found closed and, for a receive, drained. */
  ghost predicate ClosedIn(t: seq<State>, k: nat, i: nat, op: Case) {
    exists j: nat :: k <= j < i && j < |t| && FoundClosed(t[j], op)
  }

  /**
   What a call returns is what happened. An index with OK names the one step of the call that
   moved a value: the value of exactly that case entered its channel, or left it for the
   caller. CLOSED names a channel that the call found closed and, for a receive, with nothing
   left to get. With CLOSED and with every failure no step of the call moved a value of its.
   */
  lemma {:induction false} ReturnedCall(t: seq<State>, k: nat, i: nat, x: nat)
    requires Run(t) && Call(t, k, i, x)
    ensures Answered(t, k, i, x, t[i].act[x].ops, t[i].act[x].pc.ret)
  {
    if i == k + 1 {
      RefusedCall(t, k, i, x);
    } else {
      assert BusyAt(t, k + 1, x);
      CallRun(t, k, i, x);
    }
    RecordOf(t, i, x);
    if t[i].act[x].fx != [] {
      var j: nat :| k <= j < i && DoneAt(t, j, i, x) && QuietBut(t, k, i, x, j);
      RecordMeans(t, k, j, i, x);
    }
  }

  /** What an answer says about the steps k up to i of a call with these cases. */
  ghost predicate Answered(t: seq<State>, k: nat, i: nat, x: nat, ops: seq<Case>, ret: Ret)
    requires i < |t| && x < |t[i].act|
  {
    && (ret.Ret? && ret.st == Ok ==> MovedIn(t, k, i, x, ret.idx, t[i].act[x]))
    && (ret.Ret? && ret.st != Ok ==>
          && ret.st == Closed && ret.idx < |ops| && ClosedIn(t, k, i, ops[ret.idx])
          && ops[ret.idx].ch < |t[i].chans| && t[i].chans[ops[ret.idx].ch].closed)
    && (!(ret.Ret? && ret.st == Ok) ==> QuietBut(t, k, i, x, -1))
  }

  lemma {:induction false} RefusedCall(t: seq<State>, k: nat, i: nat, x: nat)
    requires i == k + 1 && RefusedAt(t, k, x)
    ensures CallState(t, k, i, x)
  {
    KeptNoOk(t, k, x);
  }

  /** The returned value is the record of effects. */
  lemma {:induction false} RecordOf(t: seq<State>, i: nat, x: nat)
    requires Run(t) && IdleAt(t, i, x)
    ensures var y := t[i].act[x]; y.fx == if y.pc.ret.Ret? then [Fx(y.pc.ret.idx, y.pc.ret.st)] else []
  {
    RunInv(t, i);
    assert ActorOk(t[i].act[x]);
  }

  ghost predicate MovedIn(t: seq<State>, k: nat, i: nat, x: nat, idx: nat, y: Actor) {
    exists j: nat :: k <= j < i && MovedAt(t, j, x, idx, y) && QuietBut(t, k, i, x, j)
  }

  lemma {:induction false} RecordMeans(t: seq<State>, k: nat, j: nat, i: nat, x: nat)
    requires Run(t) && k <= j < i && DoneAt(t, j, i, x) && QuietBut(t, k, i, x, j)
    ensures var f := t[i].act[x].fx[0]; Answered(t, k, i, x, t[i].act[x].ops, Ret(f.idx, f.st))
  {
    var y, f := t[i].act[x], t[i].act[x].fx[0];
    if f.st == Ok {
      DoneMoved(t, j, i, x);
    } else {
      ClosedRun(t, j, i, y.ops[f.idx].ch);
      KeptNoOk(t, j, x);
      assert FoundClosed(t[j], y.ops[f.idx]);
    }
  }

  /** A call that has returned has no node on a list, and no decider still has one of them open. */
  lemma {:induction false} ReturnedLeavesNothing(t: seq<State>, i: nat, x: nat)
    requires Run(t) && i < |t| && x < |t[i].act| && t[i].act[x].pc.Idle?
    ensures forall c, n :: 0 <= c < |t[i].chans| && (n in t[i].chans[c].senders || n in t[i].chans[c].receivers) ==> n.cr != x
    ensures forall a, n :: 0 <= a < |t[i].act| && n in Refs(t[i].act[a].pc) ==> n.cr != x
  {
    RunInv(t, i);
    assert ActorOk(t[i].act[x]);
    assert forall slot :: PlaceOf(t[i].act[x], slot) == Nowhere && Window(t[i].act[x], slot) == No;
  }

  /** Mid-call, too, a call never has more than one effect, and a wait that is not decided has had none. */
  lemma {:induction false} AtMostOneEffect(t: seq<State>, i: nat, x: nat)
    requires Run(t) && i < |t| && x < |t[i].act|
    ensures |t[i].act[x].fx| <= 1
    ensures forall slot :: Undecided(t[i].act[x], slot) ==> t[i].act[x].fx == []
  {
    RunInv(t, i);
    assert ActorOk(t[i].act[x]);
  }

  /** A plain wait's node is linked exactly while the wait is undecided. */
  lemma {:induction false} LinkedWhileUndecided(t: seq<State>, i: nat, x: nat)
    requires Run(t) && i < |t| && x < |t[i].act|
    ensures (exists c :: 0 <= c < |t[i].chans| && (Node(x, Own) in t[i].chans[c].senders || Node(x, Own) in t[i].chans[c].receivers))
        <==> (t[i].act[x].pc.Parked? && t[i].act[x].cstat == Waiting)
  {
    RunInv(t, i);
    var s := t[i];
    assert ActorOk(s.act[x]);
    var n := Node(x, Own);
    if s.act[x].pc.Parked? && s.act[x].cstat == Waiting {
      assert Undecided(s.act[x], n.slot);
      assert Linked(s, n, PlaceOf(s.act[n.cr], n.slot));
    }
  }
}
