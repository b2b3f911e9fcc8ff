/**
 Nobody is stuck: in every reachable state of the channel machine, an actor in a call waits for
 a counterpart that is not there, or can go on, or waits for one particular other actor that can.
 */
module ChannelProgress {
  import opened Lists
  import opened Channels
  import opened ChannelInvariant
  import opened ChannelTheorems

  /** A step of a call, apart from cancels and deadlines, which nobody can count on. */
  predicate Onward(st: Step) {
    !st.DoCancelWait? && !st.DoCancelSelect?
  }

  ghost predicate Advances(s: State, x: nat, st: Step, s': State) {
    Onward(st) && NextStep(s, x, st, s') && s' != s
  }

  ghost predicate CanAdvance(s: State, x: nat) {
    exists st, s' :: Advances(s, x, st, s')
  }

  /** Waits for a counterpart, a close, a cancel or a deadline, and none has decided it. */
  predicate AwaitsPartner(x: Actor) {
    (x.pc.Parked? && x.cstat == Waiting) || (x.pc.Blocked? && x.winner == -1 && x.cstat == Waiting)
  }

  /** The channel whose lock the actor is about to take. */
  ghost predicate Wants(x: Actor, c: nat) {
    match x.pc
    case Want(why) => |x.ops| > 0 && x.ops[Cur(x, why)].ch == c
    case Reg(i) => i < |x.ops| && x.ops[i].ch == c
    case Unreg(j, reg, _) => j < reg && j < |x.ops| && x.ops[j].ch == c
    case CloseWant(c') => c == c'
    case _ => false
  }

  ghost predicate LockedOut(s: State, x: nat, c: nat, b: nat)
    requires x < |s.act|
  {
    c < |s.chans| && Wants(s.act[x], c) && s.chans[c].lock == HeldBy(b)
  }

  /** x waits for b to leave a critical section, or the window in which b has decided a node of x. */
  ghost predicate WaitsFor(s: State, x: nat, b: nat) {
    && x < |s.act| && b < |s.act| && b != x
    && ((exists c :: LockedOut(s, x, c, b)) || exists slot :: Window(s.act[x], slot) == By(b))
  }

  // ---------------------------------------------------------------- inside a critical section

  lemma {:induction false} ByStep(s: State, x: nat, st: Step, s': State)
    requires Advances(s, x, st, s')
    ensures CanAdvance(s, x)
  {
  }

  /** An attempt that holds the lock of its current case. */
  ghost predicate Attempt(s: State, a: nat) {
    Inv(s) && ValidActor(s, a) && HasCur(s, a) && !s.act[a].pc.Want?
  }

  lemma {:induction false} FindClosedStep(s: State, a: nat)
    requires Attempt(s, a) && s.act[a].pc.Taking?
    requires var h := s.chans[CurCase(s, a).ch]; h.closed && (!CurCase(s, a).isSend ==> h.ring == [] && h.senders == [])
    ensures CanAdvance(s, a)
  {
    var x, why := s.act[a], s.act[a].pc.why;
    var i := Cur(x, why);
    var s' := Leave(s, a, x.ops[i].ch, AfterHit(why, i, Closed), [Fx(i, Closed)]);
    assert s'.act[a].pc != x.pc;
    ByStep(s, a, DoFindClosed, s');
  }

  lemma {:induction false} DiscardStep(s: State, a: nat)
    requires Attempt(s, a)
    requires var op := CurCase(s, a); var h := s.chans[op.ch]; var l := List(h, !op.isSend);
      && (s.act[a].pc.Taking? ==> if op.isSend then !h.closed else h.ring == [])
      && l != [] && l[0].cr < |s.act| && !Live(s, l[0])
    ensures CanAdvance(s, a)
  {
    var op := CurCase(s, a);
    var h := s.chans[op.ch];
    var l := List(h, !op.isSend);
    var s' := SetChan(s, op.ch, WithList(h, !op.isSend, l[1..]));
    assert |List(s'.chans[op.ch], !op.isSend)| != |l|;
    ByStep(s, a, DoDiscard, s');
  }

  lemma {:induction false} HandOffStep(s: State, a: nat)
    requires Attempt(s, a) && s.act[a].pc.Taking?
    requires var op := CurCase(s, a); var h := s.chans[op.ch];
      op.isSend && !h.closed && h.receivers != [] && h.receivers[0].cr < |s.act| && Live(s, h.receivers[0])
    ensures CanAdvance(s, a)
  {
    var x, why := s.act[a], s.act[a].pc.why;
    var i := Cur(x, why);
    var op := x.ops[i];
    var h := s.chans[op.ch];
    var n := h.receivers[0];
    var h' := h.(receivers := h.receivers[1..], sent := h.sent + [op.val], rcvd := h.rcvd + [op.val]);
    var s' := Leave(Grant(SetChan(s, op.ch, h'), n, Ok, a, op.val), a, op.ch, Waking(n, why), [Fx(i, Ok)]);
    assert s'.act[a].pc != x.pc;
    ByStep(s, a, DoHandOff, s');
  }

  lemma {:induction false} PushStep(s: State, a: nat)
    requires Attempt(s, a) && s.act[a].pc.Taking?
    requires var op := CurCase(s, a); var h := s.chans[op.ch]; op.isSend && !h.closed && h.receivers == [] && |h.ring| < h.cap
    ensures CanAdvance(s, a)
  {
    var x, why := s.act[a], s.act[a].pc.why;
    var i := Cur(x, why);
    var op := x.ops[i];
    var h := s.chans[op.ch];
    var h' := h.(ring := h.ring + [op.val], sent := h.sent + [op.val]);
    var s' := Leave(SetChan(s, op.ch, h'), a, op.ch, AfterHit(why, i, Ok), [Fx(i, Ok)]);
    assert s'.act[a].pc != x.pc;
    ByStep(s, a, DoPushRing, s');
  }

  lemma {:induction false} PopStep(s: State, a: nat)
    requires Attempt(s, a) && s.act[a].pc.Taking?
    requires var op := CurCase(s, a); var h := s.chans[op.ch]; !op.isSend && h.cap > 0 && h.ring != []
    ensures CanAdvance(s, a)
  {
    var x, why := s.act[a], s.act[a].pc.why;
    var i := Cur(x, why);
    var op := x.ops[i];
    var h := s.chans[op.ch];
    var s' := SetChan(SetActor(s, a, x.(pc := Refilling(why), got := h.ring[0], fx := x.fx + [Fx(i, Ok)])),
                      op.ch, h.(ring := h.ring[1..], rcvd := h.rcvd + [h.ring[0]]));
    assert s'.act[a].pc != x.pc;
    ByStep(s, a, DoPopRing, s');
  }

  lemma {:induction false} RefillStep(s: State, a: nat)
    requires Attempt(s, a) && s.act[a].pc.Refilling?
    requires var h := s.chans[CurCase(s, a).ch]; h.senders != [] && InRange(s, h.senders[0]) && Live(s, h.senders[0])
    ensures CanAdvance(s, a)
  {
    var x, why := s.act[a], s.act[a].pc.why;
    var op := x.ops[Cur(x, why)];
    var h := s.chans[op.ch];
    var n := h.senders[0];
    var v := CaseOf(s, n).val;
    var h' := h.(senders := h.senders[1..], ring := h.ring + [v], sent := h.sent + [v]);
    var s' := Leave(Grant(SetChan(s, op.ch, h'), n, Ok, a, s.act[n.cr].got), a, op.ch, Waking(n, why), []);
    assert s'.act[a].pc != x.pc;
    ByStep(s, a, DoRefill, s');
  }

  lemma {:induction false} RefillNoneStep(s: State, a: nat)
    requires Attempt(s, a) && s.act[a].pc.Refilling? && s.chans[CurCase(s, a).ch].senders == []
    ensures CanAdvance(s, a)
  {
    var x, why := s.act[a], s.act[a].pc.why;
    var i := Cur(x, why);
    var s' := Leave(s, a, x.ops[i].ch, AfterHit(why, i, Ok), []);
    assert s'.act[a].pc != x.pc;
    ByStep(s, a, DoRefillNone, s');
  }

  lemma {:induction false} TakeStep(s: State, a: nat)
    requires Attempt(s, a) && s.act[a].pc.Taking?
    requires var op := CurCase(s, a); var h := s.chans[op.ch];
      !op.isSend && h.ring == [] && h.senders != [] && InRange(s, h.senders[0]) && Live(s, h.senders[0])
    ensures CanAdvance(s, a)
  {
    var x, why := s.act[a], s.act[a].pc.why;
    var i := Cur(x, why);
    var op := x.ops[i];
    var h := s.chans[op.ch];
    var n := h.senders[0];
    var v := CaseOf(s, n).val;
    var h' := h.(senders := h.senders[1..], sent := h.sent + [v], rcvd := h.rcvd + [v]);
    var s1 := Grant(SetChan(s, op.ch, h'), n, Ok, a, s.act[n.cr].got);
    var s' := Leave(SetActor(s1, a, s1.act[a].(got := v)), a, op.ch, Waking(n, why), [Fx(i, Ok)]);
    assert s'.act[a].pc != x.pc;
    ByStep(s, a, DoTakeDirect, s');
  }

  lemma {:induction false} StuckStep(s: State, a: nat)
    requires Attempt(s, a) && s.act[a].pc.Taking? && Stuck(s.chans[CurCase(s, a).ch], CurCase(s, a).isSend)
    ensures CanAdvance(s, a)
  {
    var x, why, op := s.act[a], s.act[a].pc.why, CurCase(s, a);
    var h := s.chans[op.ch];
    if why.Plain? && why.mode == MayBlock {
      var h' := WithList(h, op.isSend, List(h, op.isSend) + [Node(a, Own)]);
      var s' := SetChan(SetActor(s, a, x.(pc := Parked, cstat := Waiting, cbusy := No)), op.ch, h'.(lock := Free));
      assert s'.act[a].pc != x.pc;
      ByStep(s, a, DoPark, s');
    } else {
      var s' := Leave(s, a, op.ch, AfterMiss(why, |x.ops|, op.isSend), []);
      assert s'.act[a].pc != x.pc;
      ByStep(s, a, DoMiss, s');
    }
  }

  /** The first node of a list of the channel is there to grant or to discard. */
  lemma {:induction false} HeadThere(s: State, c: nat, side: bool)
    requires ActorsOk(s) && ListsOk(s) && c < |s.chans| && List(s.chans[c], side) != []
    ensures var n := List(s.chans[c], side)[0]; InRange(s, n) && PlaceOf(s.act[n.cr], n.slot).At?
  {
    var n := List(s.chans[c], side)[0];
    assert n in List(s.chans[c], side);
    assert PlaceOf(s.act[n.cr], n.slot) == At(c, side);
  }

  lemma {:induction false} AttemptAdvances(s: State, a: nat)
    requires Attempt(s, a)
    ensures CanAdvance(s, a)
  {
    var op := CurCase(s, a);
    var h := s.chans[op.ch];
    assert ChanOk(s, h);
    var l := List(h, !op.isSend);
    if l != [] {
      HeadThere(s, op.ch, !op.isSend);
    }
    if s.act[a].pc.Refilling? {
      assert ActorOk(s.act[a]);
      if l == [] {
        RefillNoneStep(s, a);
      } else if Live(s, l[0]) {
        RefillStep(s, a);
      } else {
        DiscardStep(s, a);
      }
    } else if op.isSend {
      if h.closed {
        FindClosedStep(s, a);
      } else if l == [] && |h.ring| < h.cap {
        PushStep(s, a);
      } else if l == [] {
        StuckStep(s, a);
      } else if Live(s, l[0]) {
        HandOffStep(s, a);
      } else {
        DiscardStep(s, a);
      }
    } else {
      if h.ring != [] {
        PopStep(s, a);
      } else if l == [] && h.closed {
        FindClosedStep(s, a);
      } else if l == [] {
        StuckStep(s, a);
      } else if Live(s, l[0]) {
        TakeStep(s, a);
      } else {
        DiscardStep(s, a);
      }
    }
  }

  lemma {:induction false} ClosingAdvances(s: State, a: nat)
    requires Inv(s) && a < |s.act| && s.act[a].pc.Closing?
    ensures CanAdvance(s, a)
  {
    var c := s.act[a].pc.c;
    assert ActorOk(s.act[a]) && OpsOk(s.act[a], |s.chans|);
    var h := s.chans[c];
    var side := h.senders != [];
    var l := List(h, side);
    if l == [] {
      var s' := SetChan(SetActor(s, a, s.act[a].(pc := Ending(s.act[a].pc.granted))), c, h.(lock := Free));
      assert s'.act[a].pc != s.act[a].pc;
      ByStep(s, a, DoCloseRelease, s');
    } else {
      CloseTakeStep(s, a, c, side);
    }
  }

  /** A close that holds the lock and has a waiter n left to take. */
  ghost predicate CloseHas(s: State, a: nat, c: nat, side: bool, n: Node) {
    && a < |s.act| && s.act[a].pc.Closing? && c == s.act[a].pc.c < |s.chans| && side == (s.chans[c].senders != [])
    && List(s.chans[c], side) != [] && n == List(s.chans[c], side)[0] && n.cr < |s.act| && n.cr != a
  }

  lemma {:induction false} CloseDropStep(s: State, a: nat, c: nat, side: bool, n: Node)
    requires CloseHas(s, a, c, side, n) && !Live(s, n)
    ensures CanAdvance(s, a)
  {
    var l := List(s.chans[c], side);
    var s' := SetChan(s, c, WithList(s.chans[c], side, l[1..]));
    assert |List(s'.chans[c], side)| != |l|;
    ByStep(s, a, DoCloseTake, s');
  }

  lemma {:induction false} CloseGrantStep(s: State, a: nat, c: nat, side: bool, n: Node)
    requires CloseHas(s, a, c, side, n) && Live(s, n)
    ensures CanAdvance(s, a)
  {
    var s1 := SetChan(s, c, WithList(s.chans[c], side, List(s.chans[c], side)[1..]));
    var g := s.act[a].pc.granted;
    var s' := SetActor(Grant(s1, n, Closed, a, s.act[n.cr].got), a, s.act[a].(pc := Closing(c, [n] + g)));
    assert |s'.act[a].pc.granted| != |g|;
    ByStep(s, a, DoCloseTake, s');
  }

  lemma {:induction false} CloseTakeStep(s: State, a: nat, c: nat, side: bool)
    requires Inv(s) && a < |s.act| && s.act[a].pc.Closing? && c == s.act[a].pc.c < |s.chans|
    requires side == (s.chans[c].senders != []) && List(s.chans[c], side) != []
    ensures CanAdvance(s, a)
  {
    var n := List(s.chans[c], side)[0];
    HeadThere(s, c, side);
    if Live(s, n) {
      CloseGrantStep(s, a, c, side, n);
    } else {
      CloseDropStep(s, a, c, side, n);
    }
  }

  /** Whoever holds a lock can go on. */
  lemma {:induction false} HolderAdvances(s: State, c: nat)
    requires Inv(s) && c < |s.chans| && s.chans[c].lock.HeldBy?
    ensures s.chans[c].lock.a < |s.act| && CanAdvance(s, s.chans[c].lock.a)
  {
    var a := s.chans[c].lock.a;
    assert Holds(s.act[a], c);
    assert ActorOk(s.act[a]) && OpsOk(s.act[a], |s.chans|);
    if s.act[a].pc.Closing? {
      ClosingAdvances(s, a);
    } else {
      AttemptAdvances(s, a);
    }
  }

  // ---------------------------------------------------------------- open windows

  lemma {:induction false} WakingAdvances(s: State, a: nat)
    requires Inv(s) && a < |s.act| && s.act[a].pc.Waking?
    ensures CanAdvance(s, a)
  {
    var x, n, why := s.act[a], s.act[a].pc.n, s.act[a].pc.why;
    assert ActorOk(x);
    assert n in Refs(x.pc) && RefOk(s, a, n);
    var s' := SetActor(SetActor(s, n.cr, Released(s.act[n.cr], n.slot)), a, x.(pc := AfterHit(why, Cur(x, why), Ok)));
    assert s'.act[a].pc != x.pc;
    ByStep(s, a, DoWakeEnd, s');
  }

  lemma {:induction false} EndingAdvances(s: State, a: nat)
    requires Inv(s) && a < |s.act| && s.act[a].pc.Ending?
    ensures CanAdvance(s, a)
  {
    var g := s.act[a].pc.granted;
    if g == [] {
      var s' := SetActor(s, a, s.act[a].(pc := Idle(Quiet)));
      assert s'.act[a].pc != s.act[a].pc;
      ByStep(s, a, DoEndOne, s');
    } else {
      assert g[0] in Refs(s.act[a].pc) && RefOk(s, a, g[0]);
      var s' := SetActor(SetActor(s, g[0].cr, Released(s.act[g[0].cr], g[0].slot)), a, s.act[a].(pc := Ending(g[1..])));
      assert |s'.act[a].pc.granted| != |g|;
      ByStep(s, a, DoEndOne, s');
    }
  }

  /** Whoever has a window open can go on. */
  lemma {:induction false} DeciderAdvances(s: State, x: nat, slot: Slot)
    requires Inv(s) && x < |s.act| && Window(s.act[x], slot).By?
    ensures var b := Window(s.act[x], slot).a; b < |s.act| && b != x && CanAdvance(s, b)
  {
    var n, b := Node(x, slot), Window(s.act[x], slot).a;
    assert Window(s.act[n.cr], n.slot).By?;
    assert n in Refs(s.act[b].pc);
    assert RefOk(s, b, n);
    if s.act[b].pc.Waking? {
      WakingAdvances(s, b);
    } else if s.act[b].pc.Closing? {
      ClosingAdvances(s, b);
    } else {
      EndingAdvances(s, b);
    }
  }

  /** A decided wait goes on, once its decider has left. */
  lemma {:induction false} LeavesWindow(s: State, x: nat, slot: Slot)
    requires Inv(s) && x < |s.act| && Window(s.act[x], slot).By?
    ensures exists b :: WaitsFor(s, x, b) && CanAdvance(s, b)
  {
    DeciderAdvances(s, x, slot);
    assert WaitsFor(s, x, Window(s.act[x], slot).a);
  }

  lemma {:induction false} OutsideLeaves(s: State, x: nat)
    requires x < |s.act| && s.act[x].cbusy == Outside
    ensures CanAdvance(s, x)
  {
    var s' := SetActor(s, x, s.act[x].(cbusy := No));
    assert s'.act[x].cbusy != s.act[x].cbusy;
    ByStep(s, x, DoCancelEnd, s');
  }

  lemma {:induction false} ParkedAdvances(s: State, x: nat)
    requires Inv(s) && x < |s.act| && s.act[x].pc.Parked? && s.act[x].cstat != Waiting
    ensures CanAdvance(s, x) || exists b :: WaitsFor(s, x, b) && CanAdvance(s, b)
  {
    var y := s.act[x];
    if y.cbusy.By? {
      assert Window(y, Own) == y.cbusy;
      LeavesWindow(s, x, Own);
    } else if y.cbusy.Outside? {
      OutsideLeaves(s, x);
    } else {
      var s' := SetActor(s, x, y.(pc := Idle(
        if y.cstat == Canceled then Fail(ECanceled) else if y.cstat == TimedOut then Fail(ETimedOut) else Ret(0, y.cstat))));
      assert s'.act[x].pc != y.pc;
      ByStep(s, x, DoUnpark, s');
    }
  }

  lemma {:induction false} FinishingAdvances(s: State, x: nat)
    requires Inv(s) && x < |s.act| && s.act[x].pc.Finishing?
    ensures CanAdvance(s, x) || exists b :: WaitsFor(s, x, b) && CanAdvance(s, b)
  {
    var y := s.act[x];
    assert ActorOk(y);
    if y.cbusy.Outside? {
      OutsideLeaves(s, x);
    } else if y.pc.out.Won? && y.wbusy.By? {
      assert Window(y, Stack(y.winner)) == y.wbusy;
      LeavesWindow(s, x, Stack(y.winner));
    } else {
      FinishStep(s, x);
    }
  }

  lemma {:induction false} FinishStep(s: State, x: nat)
    requires x < |s.act| && s.act[x].pc.Finishing? && s.act[x].cbusy == No
    requires s.act[x].pc.out.Won? ==> s.act[x].wbusy == No && s.act[x].winner >= 0
    ensures CanAdvance(s, x)
  {
    var y := s.act[x];
    var s' := SetActor(s, x, y.(cstat := Ok, pc := Idle(
      match y.pc.out
      case Won => Ret(y.winner, if y.wstat == Closed then Closed else Ok)
      case Scanned(i, st) => Ret(i, st)
      case GaveUp => Fail(if y.cstat == Canceled then ECanceled
                          else if y.cstat == TimedOut then ETimedOut else EError))));
    assert s'.act[x].pc != y.pc;
    ByStep(s, x, DoFinish, s');
  }

  // ---------------------------------------------------------------- about to take a lock

  lemma {:induction false} LockedOutAdvances(s: State, x: nat, c: nat)
    requires Inv(s) && x < |s.act| && c < |s.chans| && Wants(s.act[x], c) && s.chans[c].lock.HeldBy?
    ensures exists b :: WaitsFor(s, x, b) && CanAdvance(s, b)
  {
    HolderAdvances(s, c);
    var b := s.chans[c].lock.a;
    assert Holds(s.act[b], c);
    assert LockedOut(s, x, c, b);
    assert WaitsFor(s, x, b);
  }

  lemma {:induction false} WantStep(s: State, x: nat)
    requires ValidActor(s, x) && HasCur(s, x) && s.act[x].pc.Want? && s.chans[CurCase(s, x).ch].lock.Free?
    ensures CanAdvance(s, x)
  {
    var why, c := s.act[x].pc.why, CurCase(s, x).ch;
    var s' := SetChan(SetActor(s, x, s.act[x].(pc := Taking(why))), c, s.chans[c].(lock := HeldBy(x)));
    assert s'.act[x].pc != s.act[x].pc;
    ByStep(s, x, DoAcquire, s');
  }

  lemma {:induction false} RegStep(s: State, x: nat)
    requires ValidActor(s, x) && s.act[x].pc.Reg? && s.act[x].pc.i < |s.act[x].ops| && s.chans[s.act[x].ops[s.act[x].pc.i].ch].lock.Free?
    ensures CanAdvance(s, x)
  {
    var i := s.act[x].pc.i;
    var op := s.act[x].ops[i];
    var h := s.chans[op.ch];
    var s' := if CaseReady(h, op.isSend, x)
              then SetActor(s, x, s.act[x].(pc := Unreg(0, i, true)))
              else SetChan(SetActor(s, x, s.act[x].(pc := Reg(i + 1))), op.ch,
                           WithList(h, op.isSend, List(h, op.isSend) + [Node(x, Stack(i))]));
    assert s'.act[x].pc != s.act[x].pc;
    ByStep(s, x, DoRegister, s');
  }

  lemma {:induction false} UnregStep(s: State, x: nat)
    requires ValidActor(s, x) && s.act[x].pc.Unreg? && s.act[x].pc.j < s.act[x].pc.reg <= |s.act[x].ops|
    requires s.chans[s.act[x].ops[s.act[x].pc.j].ch].lock.Free?
    ensures CanAdvance(s, x)
  {
    var pc := s.act[x].pc;
    var op := s.act[x].ops[pc.j];
    var h := s.chans[op.ch];
    var s' := SetChan(SetActor(s, x, s.act[x].(pc := Unreg(pc.j + 1, pc.reg, pc.rescan))), op.ch,
                      WithList(h, op.isSend, Remove(List(h, op.isSend), Node(x, Stack(pc.j)))));
    assert s'.act[x].pc != pc;
    ByStep(s, x, DoUnregister, s');
  }

  lemma {:induction false} CloseWantStep(s: State, x: nat)
    requires x < |s.act| && s.act[x].pc.CloseWant? && s.act[x].pc.c < |s.chans| && s.chans[s.act[x].pc.c].lock.Free?
    ensures CanAdvance(s, x)
  {
    var c := s.act[x].pc.c;
    var s' := if s.chans[c].closed then SetActor(s, x, s.act[x].(pc := Idle(Fail(EClosed))))
              else SetChan(SetActor(s, x, s.act[x].(pc := Closing(c, []))), c, s.chans[c].(closed := true, lock := HeldBy(x)));
    assert s'.act[x].pc != s.act[x].pc;
    ByStep(s, x, DoCloseAcquire, s');
  }

  lemma {:induction false} LockAdvances(s: State, x: nat, c: nat)
    requires Inv(s) && x < |s.act| && Wants(s.act[x], c)
    ensures CanAdvance(s, x) || exists b :: WaitsFor(s, x, b) && CanAdvance(s, b)
  {
    var y := s.act[x];
    assert ActorOk(y) && OpsOk(y, |s.chans|);
    if s.chans[c].lock.HeldBy? {
      LockedOutAdvances(s, x, c);
    } else if y.pc.Want? {
      WantStep(s, x);
    } else if y.pc.Reg? {
      RegStep(s, x);
    } else if y.pc.Unreg? {
      UnregStep(s, x);
    } else {
      CloseWantStep(s, x);
    }
  }

  // ---------------------------------------------------------------- the steps of a select that need nothing

  lemma {:induction false} SelectAdvances(s: State, x: nat)
    requires Inv(s) && x < |s.act|
    requires var y := s.act[x];
      || y.pc.Init? || y.pc == Reg(|y.ops|) || (y.pc.Blocked? && !AwaitsPartner(y)) || (y.pc.Unreg? && y.pc.j == y.pc.reg)
    ensures CanAdvance(s, x)
  {
    var y := s.act[x];
    if y.pc.Init? {
      var s' := SetActor(s, x, y.(pc := Reg(0), winner := -1, wstat := Waiting, wbusy := No, cstat := Waiting, cbusy := No));
      assert s'.act[x].pc != y.pc;
      ByStep(s, x, DoInit, s');
    } else if y.pc.Reg? {
      var s' := SetActor(s, x, y.(pc := Blocked));
      assert s'.act[x].pc != y.pc;
      ByStep(s, x, DoRegisterDone, s');
    } else if y.pc.Blocked? {
      var s' := SetActor(s, x, y.(pc := Unreg(0, |y.ops|, false)));
      assert s'.act[x].pc != y.pc;
      ByStep(s, x, DoUnblock, s');
    } else {
      UnregDoneStep(s, x);
    }
  }

  lemma {:induction false} UnregDoneStep(s: State, x: nat)
    requires x < |s.act| && s.act[x].pc.Unreg? && s.act[x].pc.j == s.act[x].pc.reg
    ensures CanAdvance(s, x)
  {
    var y := s.act[x];
    var s' := SetActor(s, x, y.(pc :=
      if y.winner >= 0 then Finishing(Won)
      else if y.cstat != Waiting || !y.pc.rescan then Finishing(GaveUp)
      else Want(Scan(0, 0, false, true))));
    assert s'.act[x].pc != y.pc;
    ByStep(s, x, DoUnregisterDone(0), s');
  }

  /** The channel an actor about to take a lock wants. */
  lemma {:induction false} WantedBy(s: State, x: nat) returns (c: nat)
    requires Inv(s) && x < |s.act|
    requires var pc := s.act[x].pc; pc.Want? || pc.CloseWant? || (pc.Reg? && pc.i < |s.act[x].ops|) || (pc.Unreg? && pc.j < pc.reg)
    ensures Wants(s.act[x], c)
  {
    var y := s.act[x];
    assert ActorOk(y);
    if y.pc.Want? {
      c := y.ops[Cur(y, y.pc.why)].ch;
    } else if y.pc.Reg? {
      c := y.ops[y.pc.i].ch;
    } else if y.pc.Unreg? {
      c := y.ops[y.pc.j].ch;
    } else {
      c := y.pc.c;
    }
  }

  /**
   In every reachable state an actor in a call awaits a counterpart, or has a step to take, or
   waits for one other actor to leave a critical section or a window, and that one has a step to take.
   */
  lemma {:induction false} NobodyStuck(t: seq<State>, i: nat, x: nat)
    requires Run(t) && i < |t| && x < |t[i].act| && !t[i].act[x].pc.Idle?
    ensures AwaitsPartner(t[i].act[x]) || CanAdvance(t[i], x) || exists b :: WaitsFor(t[i], x, b) && CanAdvance(t[i], b)
  {
    RunInv(t, i);
    if !AwaitsPartner(t[i].act[x]) {
      ActorAdvances(t[i], x);
    }
  }

  lemma {:induction false} ActorAdvances(s: State, x: nat)
    requires Inv(s) && x < |s.act| && !s.act[x].pc.Idle? && !AwaitsPartner(s.act[x])
    ensures CanAdvance(s, x) || exists b :: WaitsFor(s, x, b) && CanAdvance(s, b)
  {
    var y := s.act[x];
    assert ActorOk(y) && OpsOk(y, |s.chans|);
    if y.pc.Taking? || y.pc.Refilling? {
      AttemptAdvances(s, x);
    } else if y.pc.Waking? {
      WakingAdvances(s, x);
    } else if y.pc.Parked? {
      ParkedAdvances(s, x);
    } else if y.pc.Finishing? {
      FinishingAdvances(s, x);
    } else if y.pc.Closing? {
      ClosingAdvances(s, x);
    } else if y.pc.Ending? {
      EndingAdvances(s, x);
    } else if y.pc.Init? || y.pc.Blocked? || y.pc == Reg(|y.ops|) || (y.pc.Unreg? && y.pc.j == y.pc.reg) {
      SelectAdvances(s, x);
    } else {
      var c := WantedBy(s, x);
      LockAdvances(s, x, c);
    }
  }
}
