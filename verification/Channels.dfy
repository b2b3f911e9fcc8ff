/**
 Channels, blocking and non-blocking operations, close, cancellation, deadlines
 and the multi-channel select, as one interleaving machine.

 Granularity. A critical section of a channel's ticket lock that never touches
 anything outside the channel is one step. The loops that pop waiters from a list
 decide selects by a compare-and-swap that other channels race for, so each
 iteration of them is a step of its own, with the lock held in between. The window
 between the flip of a waiter's status and the clearing of `waker_busy` is open
 across steps.

 An actor is a coroutine or a foreign thread. An element of `elem_sz` bytes is one
 value. `sent`, `rcvd`, `got` and `fx` are history: no step reads `sent`, `rcvd`
 or `fx`.
 */
module Channels {
  import opened Lists

  type Val = int

  const SELECT_MAX: nat := 64
  const U32: nat := 0x1_0000_0000

  /** Status of a wait node; `Waiting` is S_WQ_WAITING. */
  datatype Status = Waiting | Ok | Closed | Canceled | TimedOut

  /** One case of a select; a plain send or receive is a list of one case. */
  datatype Case = Case(ch: nat, isSend: bool, val: Val)

  /** `Own` is the node embedded in the coroutine, `Stack(i)` the i-th node on a select's stack. */
  datatype Slot = Own | Stack(i: nat)
  datatype Node = Node(cr: nat, slot: Slot)

  datatype Lock = Free | HeldBy(a: nat)

  datatype Chan = Chan(
    cap: nat, ring: seq<Val>, closed: bool,
    senders: seq<Node>, receivers: seq<Node>, lock: Lock,
    sent: seq<Val>, rcvd: seq<Val>)

  /** What the channel attempt in progress is for. */
  datatype Mode = MayBlock | TryOnly | NoCoroutine
  datatype Why =
    | Plain(mode: Mode)
    | Scan(k: nat, r: nat, first: bool, canBlock: bool)

  datatype Err = EFull | EEmpty | EPerm | EClosed | ECanceled | ETimedOut | EError
  datatype Ret = Quiet | Ret(idx: nat, st: Status) | Fail(e: Err)

  /** How a select ends. */
  datatype Outcome = Won | Scanned(idx: nat, st: Status) | GaveUp

  datatype Pc =
    | Idle(ret: Ret)
    | Want(why: Why)                   // about to take the lock of the current case
    | Taking(why: Why)                 // lock held, popping counterparts
    | Refilling(why: Why)              // lock held, one element already taken from the ring
    | Waking(n: Node, why: Why)        // lock released, granted n not yet released
    | Parked                           // plain wait, own node
    | Init                             // select: nothing ready, about to set up the record
    | Reg(i: nat)                      // select: registering case i
    | Blocked
    | Unreg(j: nat, reg: nat, rescan: bool)
    | Finishing(out: Outcome)
    | CloseWant(c: nat)
    | Closing(c: nat, granted: seq<Node>)
    | Ending(granted: seq<Node>)

  /** `waker_busy`, with the decider that set it; `Outside` is a cancel or deadline. */
  datatype Busy = No | By(a: nat) | Outside

  /** One effect of an operation: case `idx` completed with `st` (Ok or Closed). */
  datatype Fx = Fx(idx: nat, st: Status)

  datatype Actor = Actor(
    pc: Pc, ops: seq<Case>,
    winner: int, wstat: Status, wbusy: Busy,
    cstat: Status, cbusy: Busy,
    got: Val, fx: seq<Fx>)

  datatype State = State(act: seq<Actor>, chans: seq<Chan>)

  // ---------------------------------------------------------------- helpers

  /** Case tried k-th by a scan that drew the 32-bit random number r. */
  function ScanIndex(r: nat, k: nat, n: nat): (i: nat)
    requires n > 0
    ensures i < n
  {
    ((r + k) % U32) % n
  }

  function Cur(x: Actor, why: Why): nat
    requires |x.ops| > 0
  {
    if why.Plain? then 0 else ScanIndex(why.r, why.k, |x.ops|)
  }

  /** Next position after the attempt completed case idx with status st. */
  function AfterHit(why: Why, idx: nat, st: Status): Pc {
    if why.Scan? && !why.first then Finishing(Scanned(idx, st)) else Idle(Ret(idx, st))
  }

  /** Next position after the attempt found the case not ready and may not park. */
  function AfterMiss(why: Why, n: nat, isSend: bool): Pc {
    match why
    case Plain(mode) => Idle(Fail(if mode.NoCoroutine? then EPerm else if isSend then EFull else EEmpty))
    case Scan(k, r, first, canBlock) =>
      if k + 1 < n then Want(Scan(k + 1, r, first, canBlock))
      else if !first then Reg(0)
      else if canBlock then Init
      else Idle(Fail(EPerm))
  }

  ghost predicate InRange(s: State, n: Node) {
    n.cr < |s.act| && (match n.slot case Own => |s.act[n.cr].ops| > 0 case Stack(i) => i < |s.act[n.cr].ops|)
  }

  function CaseOf(s: State, n: Node): Case
    requires InRange(s, n)
  {
    match n.slot case Own => s.act[n.cr].ops[0] case Stack(i) => s.act[n.cr].ops[i]
  }

  /** A node that a counterpart can still grant. */
  predicate Live(s: State, n: Node)
    requires n.cr < |s.act|
  {
    n.slot.Own? || s.act[n.cr].winner == -1
  }

  function SetActor(s: State, a: nat, x: Actor): State
    requires a < |s.act|
  {
    s.(act := s.act[a := x])
  }

  function SetChan(s: State, c: nat, h: Chan): State
    requires c < |s.chans|
  {
    s.(chans := s.chans[c := h])
  }

  /** The winner CAS, the copy of v into the waiter's destination and s_wait_grant, by actor a. */
  function Granted(x: Actor, slot: Slot, st: Status, a: nat, v: Val): Actor {
    match slot
    case Own => x.(cstat := st, cbusy := By(a), got := v, fx := x.fx + [Fx(0, st)])
    case Stack(i) => x.(winner := i, wstat := st, wbusy := By(a), got := v, fx := x.fx + [Fx(i, st)])
  }

  function Grant(s: State, n: Node, st: Status, a: nat, v: Val): State
    requires n.cr < |s.act|
  {
    SetActor(s, n.cr, Granted(s.act[n.cr], n.slot, st, a, v))
  }

  /** s_wait_decide_end. */
  function Released(x: Actor, slot: Slot): Actor {
    match slot case Own => x.(cbusy := No) case Stack(_) => x.(wbusy := No)
  }

  function List(h: Chan, isSend: bool): seq<Node> {
    if isSend then h.senders else h.receivers
  }

  function WithList(h: Chan, isSend: bool, l: seq<Node>): Chan {
    if isSend then h.(senders := l) else h.(receivers := l)
  }

  ghost predicate ValidActor(s: State, a: nat) {
    a < |s.act| && |s.act[a].ops| > 0 &&
    (forall i :: 0 <= i < |s.act[a].ops| ==> s.act[a].ops[i].ch < |s.chans|)
  }

  // ---------------------------------------------------------------- starting

  ghost predicate StartOp(s: State, a: nat, op: Case, mode: Mode, s': State) {
    && a < |s.act| && s.act[a].pc.Idle? && op.ch < |s.chans|
    && s' == SetActor(s, a, s.act[a].(pc := Want(Plain(mode)), ops := [op], fx := []))
  }

  /** s_pre_block: a pending cancel or an expired deadline fails the call before it starts. */
  ghost predicate Refuse(s: State, a: nat, e: Err, s': State) {
    && a < |s.act| && s.act[a].pc.Idle? && (e == ECanceled || e == ETimedOut)
    && s' == SetActor(s, a, s.act[a].(pc := Idle(Fail(e)), fx := []))
  }

  ghost predicate StartSelect(s: State, a: nat, ops: seq<Case>, r: nat, canBlock: bool, s': State) {
    && a < |s.act| && s.act[a].pc.Idle?
    && 0 < |ops| <= SELECT_MAX && r < U32 && (forall i :: 0 <= i < |ops| ==> ops[i].ch < |s.chans|)
    && s' == SetActor(s, a, s.act[a].(pc := Want(Scan(0, r, true, canBlock)), ops := ops, fx := []))
  }

  // ---------------------------------------------------------------- attempts

  ghost predicate Acquire(s: State, a: nat, s': State) {
    && a < |s.act| && s.act[a].pc.Want?
    && var why := s.act[a].pc.why;
    && ValidActor(s, a)
    && var c := s.act[a].ops[Cur(s.act[a], why)].ch;
    && s.chans[c].lock.Free?
    && s' == SetChan(SetActor(s, a, s.act[a].(pc := Taking(why))), c, s.chans[c].(lock := HeldBy(a)))
  }

  /** The attempt ends without parking: the lock is released and the actor moves on. */
  function Leave(s: State, a: nat, c: nat, pc: Pc, fx: seq<Fx>): State
    requires a < |s.act| && c < |s.chans|
  {
    SetChan(SetActor(s, a, s.act[a].(pc := pc, fx := s.act[a].fx + fx)), c, s.chans[c].(lock := Free))
  }

  /** A send on a closed channel, or a receive on a closed and drained one. */
  ghost predicate FindClosed(s: State, a: nat, s': State) {
    && a < |s.act| && s.act[a].pc.Taking? && ValidActor(s, a)
    && var why := s.act[a].pc.why;
    && var i := Cur(s.act[a], why);
    && var op := s.act[a].ops[i];
    && var h := s.chans[op.ch];
    && h.closed
    && (!op.isSend ==> h.ring == [] && h.senders == [])
    && s' == Leave(s, a, op.ch, AfterHit(why, i, Closed), [Fx(i, Closed)])
  }

  /** Pop a select node whose select was already decided elsewhere. */
  ghost predicate Discard(s: State, a: nat, s': State) {
    && a < |s.act| && ValidActor(s, a) && (s.act[a].pc.Taking? || s.act[a].pc.Refilling?)
    && var op := s.act[a].ops[Cur(s.act[a], s.act[a].pc.why)];
    && var h := s.chans[op.ch];
    && var l := List(h, !op.isSend);
    && (s.act[a].pc.Taking? ==> if op.isSend then !h.closed else h.ring == [])
    && l != [] && l[0].cr < |s.act| && !Live(s, l[0])
    && s' == SetChan(s, op.ch, WithList(h, !op.isSend, l[1..]))
  }

  /** A send finds a parked receiver and copies straight into its destination. */
  ghost predicate HandOff(s: State, a: nat, s': State) {
    && a < |s.act| && s.act[a].pc.Taking? && ValidActor(s, a)
    && var why := s.act[a].pc.why;
    && var i := Cur(s.act[a], why);
    && var op := s.act[a].ops[i];
    && var h := s.chans[op.ch];
    && op.isSend && !h.closed && h.receivers != []
    && var n := h.receivers[0];
    && n.cr < |s.act| && Live(s, n)
    && var h' := h.(receivers := h.receivers[1..], sent := h.sent + [op.val], rcvd := h.rcvd + [op.val]);
    && s' == Leave(Grant(SetChan(s, op.ch, h'), n, Ok, a, op.val), a, op.ch, Waking(n, why), [Fx(i, Ok)])
  }

  ghost predicate PushRing(s: State, a: nat, s': State) {
    && a < |s.act| && s.act[a].pc.Taking? && ValidActor(s, a)
    && var why := s.act[a].pc.why;
    && var i := Cur(s.act[a], why);
    && var op := s.act[a].ops[i];
    && var h := s.chans[op.ch];
    && op.isSend && !h.closed && h.receivers == [] && |h.ring| < h.cap
    && var h' := h.(ring := h.ring + [op.val], sent := h.sent + [op.val]);
    && s' == Leave(SetChan(s, op.ch, h'), a, op.ch, AfterHit(why, i, Ok), [Fx(i, Ok)])
  }

  /** A receive takes the oldest buffered element and keeps the lock to refill the slot. */
  ghost predicate PopRing(s: State, a: nat, s': State) {
    && a < |s.act| && s.act[a].pc.Taking? && ValidActor(s, a)
    && var why := s.act[a].pc.why;
    && var i := Cur(s.act[a], why);
    && var op := s.act[a].ops[i];
    && var h := s.chans[op.ch];
    && !op.isSend && h.cap > 0 && h.ring != []
    && var x := s.act[a];
    && s' == SetChan(SetActor(s, a, x.(pc := Refilling(why), got := h.ring[0], fx := x.fx + [Fx(i, Ok)])),
                     op.ch, h.(ring := h.ring[1..], rcvd := h.rcvd + [h.ring[0]]))
  }

  ghost predicate Refill(s: State, a: nat, s': State) {
    && a < |s.act| && s.act[a].pc.Refilling? && ValidActor(s, a)
    && var why := s.act[a].pc.why;
    && var op := s.act[a].ops[Cur(s.act[a], why)];
    && var h := s.chans[op.ch];
    && h.senders != []
    && var n := h.senders[0];
    && InRange(s, n) && Live(s, n)
    && var v := CaseOf(s, n).val;
    && var h' := h.(senders := h.senders[1..], ring := h.ring + [v], sent := h.sent + [v]);
    && s' == Leave(Grant(SetChan(s, op.ch, h'), n, Ok, a, s.act[n.cr].got), a, op.ch, Waking(n, why), [])
  }

  ghost predicate RefillNone(s: State, a: nat, s': State) {
    && a < |s.act| && s.act[a].pc.Refilling? && ValidActor(s, a)
    && var why := s.act[a].pc.why;
    && var i := Cur(s.act[a], why);
    && var op := s.act[a].ops[i];
    && s.chans[op.ch].senders == []
    && s' == Leave(s, a, op.ch, AfterHit(why, i, Ok), [])
  }

  /** A receive on an empty ring takes the value of the first live parked sender. */
  ghost predicate TakeDirect(s: State, a: nat, s': State) {
    && a < |s.act| && s.act[a].pc.Taking? && ValidActor(s, a)
    && var why := s.act[a].pc.why;
    && var i := Cur(s.act[a], why);
    && var op := s.act[a].ops[i];
    && var h := s.chans[op.ch];
    && !op.isSend && h.ring == [] && h.senders != []
    && var n := h.senders[0];
    && InRange(s, n) && Live(s, n)
    && var v := CaseOf(s, n).val;
    && var h' := h.(senders := h.senders[1..], sent := h.sent + [v], rcvd := h.rcvd + [v]);
    && var s1 := Grant(SetChan(s, op.ch, h'), n, Ok, a, s.act[n.cr].got);
    && s' == Leave(SetActor(s1, a, s1.act[a].(got := v)), a, op.ch, Waking(n, why), [Fx(i, Ok)])
  }

  /** Nothing can complete the case now. */
  ghost predicate Stuck(h: Chan, isSend: bool) {
    if isSend then !h.closed && h.receivers == [] && !(|h.ring| < h.cap)
    else h.ring == [] && h.senders == [] && !h.closed
  }

  ghost predicate Miss(s: State, a: nat, s': State) {
    && a < |s.act| && s.act[a].pc.Taking? && ValidActor(s, a)
    && var why := s.act[a].pc.why;
    && var op := s.act[a].ops[Cur(s.act[a], why)];
    && (why.Plain? ==> why.mode != MayBlock)
    && Stuck(s.chans[op.ch], op.isSend)
    && s' == Leave(s, a, op.ch, AfterMiss(why, |s.act[a].ops|, op.isSend), [])
  }

  ghost predicate Park(s: State, a: nat, s': State) {
    && a < |s.act| && s.act[a].pc.Taking? && ValidActor(s, a)
    && var why := s.act[a].pc.why;
    && why.Plain? && why.mode == MayBlock
    && var op := s.act[a].ops[0];
    && var h := s.chans[op.ch];
    && Stuck(h, op.isSend)
    && var h' := WithList(h, op.isSend, List(h, op.isSend) + [Node(a, Own)]);
    && s' == SetChan(SetActor(s, a, s.act[a].(pc := Parked, cstat := Waiting, cbusy := No)), op.ch, h'.(lock := Free))
  }

  /** The granter has woken n and clears its waker_busy. */
  ghost predicate WakeEnd(s: State, a: nat, s': State) {
    && a < |s.act| && s.act[a].pc.Waking? && |s.act[a].ops| > 0
    && var n := s.act[a].pc.n;
    && n.cr < |s.act| && n.cr != a
    && var why := s.act[a].pc.why;
    && s' == SetActor(SetActor(s, n.cr, Released(s.act[n.cr], n.slot)), a,
                      s.act[a].(pc := AfterHit(why, Cur(s.act[a], why), Ok)))
  }

  // ---------------------------------------------------------------- waits

  /** s_wait_block returns: decided, and the decider has left. */
  ghost predicate Unpark(s: State, a: nat, s': State) {
    && a < |s.act| && s.act[a].pc.Parked?
    && var x := s.act[a];
    && x.cstat != Waiting && x.cbusy == No
    && s' == SetActor(s, a, x.(pc := Idle(
         if x.cstat == Canceled then Fail(ECanceled)
         else if x.cstat == TimedOut then Fail(ETimedOut)
         else Ret(0, x.cstat))))
  }

  /** Cancel or deadline of a plain wait: unlink under the channel's lock, then decide. */
  ghost predicate CancelWait(s: State, t: nat, st: Status, s': State) {
    && ValidActor(s, t) && s.act[t].pc.Parked? && s.act[t].cstat == Waiting
    && (st == Canceled || st == TimedOut)
    && var op := s.act[t].ops[0];
    && var h := s.chans[op.ch];
    && h.lock.Free?
    && s' == SetChan(SetActor(s, t, s.act[t].(cstat := st, cbusy := Outside)), op.ch,
                     WithList(h, op.isSend, Remove(List(h, op.isSend), Node(t, Own))))
  }

  /** Cancel or deadline of a select: its own node is on no list and has no lock. */
  ghost predicate CancelSelect(s: State, t: nat, st: Status, s': State) {
    && t < |s.act| && !s.act[t].pc.Parked? && s.act[t].cstat == Waiting
    && (st == Canceled || st == TimedOut)
    && s' == SetActor(s, t, s.act[t].(cstat := st, cbusy := Outside))
  }

  ghost predicate CancelEnd(s: State, t: nat, s': State) {
    && t < |s.act| && s.act[t].cbusy == Outside
    && s' == SetActor(s, t, s.act[t].(cbusy := No))
  }

  // ---------------------------------------------------------------- select

  ghost predicate SelectInit(s: State, a: nat, s': State) {
    && a < |s.act| && s.act[a].pc.Init?
    && s' == SetActor(s, a, s.act[a].(pc := Reg(0), winner := -1, wstat := Waiting, wbusy := No,
                                      cstat := Waiting, cbusy := No))
  }

  /** s_select_case_ready: nodes of the select itself do not count. */
  ghost predicate CaseReady(h: Chan, isSend: bool, a: nat) {
    || h.closed
    || (if isSend then |h.ring| < h.cap else h.cap > 0 && h.ring != [])
    || exists n :: n in List(h, !isSend) && n.cr != a
  }

  ghost predicate Register(s: State, a: nat, s': State) {
    && ValidActor(s, a) && s.act[a].pc.Reg? && s.act[a].pc.i < |s.act[a].ops|
    && var i := s.act[a].pc.i;
    && var op := s.act[a].ops[i];
    && var h := s.chans[op.ch];
    && h.lock.Free?
    && s' == if CaseReady(h, op.isSend, a)
             then SetActor(s, a, s.act[a].(pc := Unreg(0, i, true)))
             else SetChan(SetActor(s, a, s.act[a].(pc := Reg(i + 1))), op.ch,
                          WithList(h, op.isSend, List(h, op.isSend) + [Node(a, Stack(i))]))
  }

  ghost predicate RegisterDone(s: State, a: nat, s': State) {
    && a < |s.act| && s.act[a].pc == Reg(|s.act[a].ops|)
    && s' == SetActor(s, a, s.act[a].(pc := Blocked))
  }

  ghost predicate Unblock(s: State, a: nat, s': State) {
    && a < |s.act| && s.act[a].pc.Blocked?
    && (s.act[a].winner != -1 || s.act[a].cstat != Waiting)
    && s' == SetActor(s, a, s.act[a].(pc := Unreg(0, |s.act[a].ops|, false)))
  }

  ghost predicate Unregister(s: State, a: nat, s': State) {
    && ValidActor(s, a) && s.act[a].pc.Unreg?
    && var pc := s.act[a].pc;
    && pc.j < pc.reg <= |s.act[a].ops|
    && var op := s.act[a].ops[pc.j];
    && var h := s.chans[op.ch];
    && h.lock.Free?
    && s' == SetChan(SetActor(s, a, s.act[a].(pc := Unreg(pc.j + 1, pc.reg, pc.rescan))), op.ch,
                     WithList(h, op.isSend, Remove(List(h, op.isSend), Node(a, Stack(pc.j)))))
  }

  ghost predicate UnregisterDone(s: State, a: nat, r: nat, s': State) {
    && a < |s.act| && s.act[a].pc.Unreg? && s.act[a].pc.j == s.act[a].pc.reg && r < U32
    && var x := s.act[a];
    && s' == SetActor(s, a, x.(pc :=
         if x.winner >= 0 then Finishing(Won)
         else if x.cstat != Waiting || !x.pc.rescan then Finishing(GaveUp)
         else Want(Scan(0, r, false, true))))
  }

  ghost predicate Finish(s: State, a: nat, s': State) {
    && a < |s.act| && s.act[a].pc.Finishing?
    && var x := s.act[a];
    && x.cbusy == No && (x.pc.out.Won? ==> x.wbusy == No && x.winner >= 0)
    && s' == SetActor(s, a, x.(cstat := Ok, pc := Idle(
         match x.pc.out
         case Won => Ret(x.winner, if x.wstat == Closed then Closed else Ok)
         case Scanned(i, st) => Ret(i, st)
         case GaveUp => Fail(if x.cstat == Canceled then ECanceled
                             else if x.cstat == TimedOut then ETimedOut else EError))))
  }

  // ---------------------------------------------------------------- close

  ghost predicate StartClose(s: State, a: nat, c: nat, s': State) {
    && a < |s.act| && s.act[a].pc.Idle? && c < |s.chans|
    && s' == SetActor(s, a, s.act[a].(pc := CloseWant(c), fx := []))
  }

  ghost predicate CloseAcquire(s: State, a: nat, s': State) {
    && a < |s.act| && s.act[a].pc.CloseWant?
    && var c := s.act[a].pc.c;
    && c < |s.chans| && s.chans[c].lock.Free?
    && s' == if s.chans[c].closed then SetActor(s, a, s.act[a].(pc := Idle(Fail(EClosed))))
             else SetChan(SetActor(s, a, s.act[a].(pc := Closing(c, []))), c,
                          s.chans[c].(closed := true, lock := HeldBy(a)))
  }

  /** One iteration of the close loop: senders first, then receivers. */
  ghost predicate CloseTake(s: State, a: nat, s': State) {
    && a < |s.act| && s.act[a].pc.Closing?
    && var c := s.act[a].pc.c;
    && c < |s.chans|
    && var h := s.chans[c];
    && var side := h.senders != [];
    && List(h, side) != []
    && var n := List(h, side)[0];
    && n.cr < |s.act| && n.cr != a
    && var s1 := SetChan(s, c, WithList(h, side, List(h, side)[1..]));
    && s' == if !Live(s, n) then s1
             else SetActor(Grant(s1, n, Closed, a, s.act[n.cr].got), a,
                           s.act[a].(pc := Closing(c, [n] + s.act[a].pc.granted)))
  }

  ghost predicate CloseRelease(s: State, a: nat, s': State) {
    && a < |s.act| && s.act[a].pc.Closing?
    && var c := s.act[a].pc.c;
    && c < |s.chans|
    && s.chans[c].senders == [] && s.chans[c].receivers == []
    && s' == SetChan(SetActor(s, a, s.act[a].(pc := Ending(s.act[a].pc.granted))), c, s.chans[c].(lock := Free))
  }

  ghost predicate EndOne(s: State, a: nat, s': State) {
    && a < |s.act| && s.act[a].pc.Ending?
    && var g := s.act[a].pc.granted;
    && s' == if g == [] then SetActor(s, a, s.act[a].(pc := Idle(Quiet)))
             else if g[0].cr < |s.act| && g[0].cr != a then
               SetActor(SetActor(s, g[0].cr, Released(s.act[g[0].cr], g[0].slot)), a,
                        s.act[a].(pc := Ending(g[1..])))
             else s
  }

  // ---------------------------------------------------------------- the machine

  datatype Step =
    | DoStartOp(op: Case, mode: Mode)
    | DoRefuse(e: Err)
    | DoStartSelect(ops: seq<Case>, r: nat, canBlock: bool)
    | DoAcquire | DoFindClosed | DoDiscard | DoHandOff | DoPushRing | DoPopRing | DoRefill | DoRefillNone
    | DoTakeDirect | DoMiss | DoPark | DoWakeEnd
    | DoUnpark | DoCancelWait(st: Status) | DoCancelSelect(st: Status) | DoCancelEnd
    | DoInit | DoRegister | DoRegisterDone | DoUnblock | DoUnregister | DoUnregisterDone(r: nat) | DoFinish
    | DoStartClose(c: nat) | DoCloseAcquire | DoCloseTake | DoCloseRelease | DoEndOne

  ghost predicate NextStep(s: State, a: nat, st: Step, s': State) {
    match st
    case DoStartOp(op, mode) => StartOp(s, a, op, mode, s')
    case DoRefuse(e) => Refuse(s, a, e, s')
    case DoStartSelect(ops, r, canBlock) => StartSelect(s, a, ops, r, canBlock, s')
    case DoAcquire => Acquire(s, a, s')
    case DoFindClosed => FindClosed(s, a, s')
    case DoDiscard => Discard(s, a, s')
    case DoHandOff => HandOff(s, a, s')
    case DoPushRing => PushRing(s, a, s')
    case DoPopRing => PopRing(s, a, s')
    case DoRefill => Refill(s, a, s')
    case DoRefillNone => RefillNone(s, a, s')
    case DoTakeDirect => TakeDirect(s, a, s')
    case DoMiss => Miss(s, a, s')
    case DoPark => Park(s, a, s')
    case DoWakeEnd => WakeEnd(s, a, s')
    case DoUnpark => Unpark(s, a, s')
    case DoCancelWait(st) => CancelWait(s, a, st, s')
    case DoCancelSelect(st) => CancelSelect(s, a, st, s')
    case DoCancelEnd => CancelEnd(s, a, s')
    case DoInit => SelectInit(s, a, s')
    case DoRegister => Register(s, a, s')
    case DoRegisterDone => RegisterDone(s, a, s')
    case DoUnblock => Unblock(s, a, s')
    case DoUnregister => Unregister(s, a, s')
    case DoUnregisterDone(r) => UnregisterDone(s, a, r, s')
    case DoFinish => Finish(s, a, s')
    case DoStartClose(c) => StartClose(s, a, c, s')
    case DoCloseAcquire => CloseAcquire(s, a, s')
    case DoCloseTake => CloseTake(s, a, s')
    case DoCloseRelease => CloseRelease(s, a, s')
    case DoEndOne => EndOne(s, a, s')
  }

  ghost predicate Initial(s: State) {
    && (forall a :: 0 <= a < |s.act| ==>
          var x := s.act[a];
          x.pc == Idle(Quiet) && x.ops == [] && x.cstat == Ok && x.cbusy == No && x.wbusy == No && x.fx == [])
    && (forall c :: 0 <= c < |s.chans| ==>
          var h := s.chans[c];
          h.ring == [] && !h.closed && h.senders == [] && h.receivers == [] && h.lock == Free
          && h.sent == [] && h.rcvd == [])
  }

  ghost predicate Next(s: State, s': State) {
    exists a: nat, st: Step :: NextStep(s, a, st, s')
  }

  /** A finite run from an initial state. */
  ghost predicate Run(t: seq<State>) {
    && |t| > 0 && Initial(t[0])
    && forall i :: 0 <= i < |t| - 1 ==> Next(t[i], t[i + 1])
  }
}
