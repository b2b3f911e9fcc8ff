/** The inductive invariant of the channel machine, and its preservation by every step. */
module ChannelInvariant {
  import opened Lists
  import opened Channels

  // ---------------------------------------------------------------- facts about one actor

  /** Case i of a select is registered (unless a counterpart popped it) while the select is at pc. */
  predicate Registered(pc: Pc, i: nat) {
    match pc
    case Reg(k) => i < k
    case Blocked => true
    case Unreg(j, reg, _) => j <= i < reg
    case _ => false
  }

  predicate InSelect(pc: Pc) {
    pc.Reg? || pc.Blocked? || pc.Unreg?
  }

  datatype Place = Nowhere | At(c: nat, isSend: bool)

  /** The list on which the actor's node may be found. */
  function PlaceOf(x: Actor, slot: Slot): Place {
    match slot
    case Own =>
      if x.pc.Parked? && x.cstat == Waiting && |x.ops| == 1 then At(x.ops[0].ch, x.ops[0].isSend) else Nowhere
    case Stack(i) =>
      if Registered(x.pc, i) && i < |x.ops| && x.winner != i then At(x.ops[i].ch, x.ops[i].isSend) else Nowhere
  }

  /** The node waits and nothing has decided it. */
  predicate Undecided(x: Actor, slot: Slot) {
    PlaceOf(x, slot).At? && (slot.Own? || x.winner == -1)
  }

  predicate Decided(x: Actor, slot: Slot) {
    match slot
    case Own => x.pc.Parked? && x.cstat != Waiting
    case Stack(i) => (InSelect(x.pc) || x.pc == Finishing(Won)) && x.winner == i
  }

  /** The decider whose window on this node is still open. */
  function Window(x: Actor, slot: Slot): Busy {
    if !Decided(x, slot) then No else match slot case Own => x.cbusy case Stack(_) => x.wbusy
  }

  /** Nodes whose decider window the actor at pc has open. */
  function Refs(pc: Pc): seq<Node> {
    match pc
    case Waking(n, _) => [n]
    case Closing(_, g) => g
    case Ending(g) => g
    case _ => []
  }

  predicate Holds(x: Actor, c: nat) {
    match x.pc
    case Taking(why) => |x.ops| > 0 && x.ops[Cur(x, why)].ch == c
    case Refilling(why) => |x.ops| > 0 && x.ops[Cur(x, why)].ch == c
    case Closing(c', _) => c == c'
    case _ => false
  }

  /** The record of a select and the effects it has had so far agree. */
  predicate RecordOk(x: Actor) {
    && !x.wbusy.Outside?
    && if x.winner == -1 then x.fx == [] && x.wbusy == No
       else 0 <= x.winner < |x.ops| && (x.wstat == Ok || x.wstat == Closed) && x.fx == [Fx(x.winner, x.wstat)]
  }

  predicate Quiescent(x: Actor) {
    x.cstat != Waiting && x.cbusy == No && x.wbusy == No
  }

  predicate SelectQuiet(x: Actor) {
    && (x.cstat == Waiting || x.cstat == Canceled || x.cstat == TimedOut)
    && (x.cstat == Waiting ==> x.cbusy == No) && !x.cbusy.By?
  }

  predicate WhyOk(x: Actor, why: Why) {
    |x.ops| > 0 &&
    match why
    case Plain(_) => |x.ops| == 1 && Quiescent(x)
    case Scan(k, r, first, canBlock) =>
      k < |x.ops| && (if first then Quiescent(x) else x.winner == -1 && x.wbusy == No && SelectQuiet(x))
  }

  predicate ActorOk(x: Actor) {
    match x.pc
    case Idle(ret) => Quiescent(x) && x.fx == (if ret.Ret? then [Fx(ret.idx, ret.st)] else [])
    case Want(why) => WhyOk(x, why) && x.fx == []
    case Taking(why) => WhyOk(x, why) && x.fx == []
    case Refilling(why) => WhyOk(x, why) && !x.ops[Cur(x, why)].isSend && x.fx == [Fx(Cur(x, why), Ok)]
    case Waking(n, why) => WhyOk(x, why) && x.fx == [Fx(Cur(x, why), Ok)]
    case Parked =>
      && |x.ops| == 1 && x.wbusy == No && (x.cstat == Waiting ==> x.cbusy == No)
      && x.fx == (if x.cstat == Ok || x.cstat == Closed then [Fx(0, x.cstat)] else [])
    case Init => |x.ops| > 0 && Quiescent(x) && x.fx == []
    case Reg(i) => i <= |x.ops| && |x.ops| > 0 && x.winner < i && RecordOk(x) && SelectQuiet(x)
    case Blocked => |x.ops| > 0 && RecordOk(x) && SelectQuiet(x)
    case Unreg(j, reg, rescan) =>
      && j <= reg <= |x.ops| && |x.ops| > 0 && RecordOk(x) && SelectQuiet(x)
      && (!rescan ==> x.winner != -1 || x.cstat != Waiting)
    case Finishing(out) =>
      SelectQuiet(x) && |x.ops| > 0 &&
      (match out
       case Won => x.winner >= 0 && RecordOk(x)
       case Scanned(i, st) => x.winner == -1 && x.wbusy == No && x.fx == [Fx(i, st)]
       case GaveUp => x.winner == -1 && RecordOk(x) && x.cstat != Waiting)
    case CloseWant(_) => Quiescent(x) && x.fx == []
    case Closing(_, _) => Quiescent(x) && x.fx == []
    case Ending(_) => Quiescent(x) && x.fx == []
  }

  ghost predicate OpsOk(x: Actor, n: nat) {
    && (forall i :: 0 <= i < |x.ops| ==> x.ops[i].ch < n)
    && (x.pc.CloseWant? || x.pc.Closing? ==> x.pc.c < n)
  }

  // ---------------------------------------------------------------- the invariant

  ghost predicate ActorsOk(s: State) {
    forall a :: 0 <= a < |s.act| ==> ActorOk(s.act[a]) && OpsOk(s.act[a], |s.chans|)
  }

  ghost predicate LocksOk(s: State) {
    && (forall c, a :: 0 <= c < |s.chans| && 0 <= a < |s.act| && Holds(s.act[a], c) ==> s.chans[c].lock == HeldBy(a))
    && (forall c :: 0 <= c < |s.chans| && s.chans[c].lock.HeldBy? ==>
          s.chans[c].lock.a < |s.act| && Holds(s.act[s.chans[c].lock.a], c))
  }

  ghost predicate ListOk(s: State, c: nat, isSend: bool, l: seq<Node>) {
    NoDup(l) && forall n :: n in l ==> n.cr < |s.act| && PlaceOf(s.act[n.cr], n.slot) == At(c, isSend)
  }

  ghost predicate ListsOk(s: State) {
    forall c :: 0 <= c < |s.chans| ==>
      ListOk(s, c, true, s.chans[c].senders) && ListOk(s, c, false, s.chans[c].receivers)
  }

  ghost predicate Linked(s: State, n: Node, p: Place) {
    p.At? && p.c < |s.chans| && n in List(s.chans[p.c], p.isSend)
  }

  ghost predicate UndecidedLinked(s: State) {
    forall n: Node :: n.cr < |s.act| && Undecided(s.act[n.cr], n.slot) ==>
      Linked(s, n, PlaceOf(s.act[n.cr], n.slot))
  }

  ghost predicate RefOk(s: State, a: nat, n: Node) {
    n.cr < |s.act| && n.cr != a && Window(s.act[n.cr], n.slot) == By(a)
  }

  ghost predicate RefsOk(s: State) {
    && (forall a, n :: 0 <= a < |s.act| && n in Refs(s.act[a].pc) ==> RefOk(s, a, n))
    && (forall a :: 0 <= a < |s.act| ==> NoDup(Refs(s.act[a].pc)))
  }

  /** An open window belongs to a decider that is still inside it. */
  ghost predicate WindowsOk(s: State) {
    forall n: Node :: n.cr < |s.act| && Window(s.act[n.cr], n.slot).By? ==>
      var a := Window(s.act[n.cr], n.slot).a; a < |s.act| && n in Refs(s.act[a].pc)
  }

  ghost predicate LiveIn(s: State, l: seq<Node>, n: Node) {
    n in l && n.cr < |s.act| && Live(s, n)
  }

  predicate Refilled(s: State, h: Chan) {
    h.lock.HeldBy? && h.lock.a < |s.act| && s.act[h.lock.a].pc.Refilling?
  }

  predicate BeingClosed(s: State, h: Chan) {
    h.lock.HeldBy? && h.lock.a < |s.act| && s.act[h.lock.a].pc.Closing?
  }

  /** The ring is empty, and not because a receive has just taken its last element. */
  predicate Drained(s: State, h: Chan) {
    h.ring == [] && !Refilled(s, h)
  }

  /** The ring is full, but for the element a receive has just taken. */
  predicate Full(s: State, h: Chan) {
    |h.ring| + (if Refilled(s, h) then 1 else 0) == h.cap
  }

  /** What holds of a channel apart from its waiters. */
  predicate RingOk(s: State, h: Chan) {
    && |h.ring| + (if Refilled(s, h) then 1 else 0) <= h.cap
    && h.rcvd + h.ring == h.sent
    && (h.closed ==> BeingClosed(s, h) || (h.senders == [] && h.receivers == []))
    && (BeingClosed(s, h) ==> h.closed)
  }

  /** Parked receivers mean an empty ring, parked senders a full one. */
  ghost predicate ChanOk(s: State, h: Chan) {
    && RingOk(s, h)
    && (forall n :: LiveIn(s, h.receivers, n) ==> Drained(s, h))
    && (forall n, m :: LiveIn(s, h.receivers, n) && LiveIn(s, h.senders, m) ==> n.cr == m.cr)
    && (forall m :: LiveIn(s, h.senders, m) ==> Full(s, h))
  }

  ghost predicate ChansOk(s: State) {
    forall c :: 0 <= c < |s.chans| ==> ChanOk(s, s.chans[c])
  }

  ghost predicate Inv(s: State) {
    && ActorsOk(s) && LocksOk(s) && ListsOk(s) && UndecidedLinked(s)
    && RefsOk(s) && WindowsOk(s) && ChansOk(s)
  }

  /** Losing live waiters does not hurt a channel. */
  lemma {:induction false} ChanChange(s: State, s': State, h: Chan, h': Chan)
    requires ChanOk(s, h) && RingOk(s', h')
    requires forall n :: LiveIn(s', h'.senders, n) ==> LiveIn(s, h.senders, n)
    requires forall n :: LiveIn(s', h'.receivers, n) ==> LiveIn(s, h.receivers, n)
    requires (Drained(s, h) ==> Drained(s', h')) || h'.receivers == []
    requires (Full(s, h) ==> Full(s', h')) || h'.senders == []
    ensures ChanOk(s', h')
  {
  }

  // ---------------------------------------------------------------- steps of one actor alone

  /** Nothing that other parts of the state depend on changes between x and x'. */
  ghost predicate SameView(x: Actor, x': Actor) {
    && (forall slot :: PlaceOf(x', slot) == PlaceOf(x, slot))
    && ((x'.winner == x.winner && x'.ops == x.ops) || forall slot :: PlaceOf(x, slot) == Nowhere)
    && (forall slot :: Window(x, slot).By? || Window(x', slot).By? ==> Window(x', slot) == Window(x, slot))
    && Refs(x'.pc) == Refs(x.pc)
    && (forall c :: Holds(x', c) == Holds(x, c))
    && x'.pc.Refilling? == x.pc.Refilling? && x'.pc.Closing? == x.pc.Closing?
  }

  lemma {:induction false} LocalStep(s: State, a: nat, x': Actor)
    requires Inv(s) && a < |s.act| && SameView(s.act[a], x') && ActorOk(x') && OpsOk(x', |s.chans|)
    ensures Inv(SetActor(s, a, x'))
  {
    var s' := SetActor(s, a, x');
    LocalLists(s, a, x');
    LocalRefs(s, a, x');
    LocalChans(s, a, x');
    assert LocksOk(s');
  }

  lemma {:induction false} LocalLists(s: State, a: nat, x': Actor)
    requires ListsOk(s) && UndecidedLinked(s) && a < |s.act| && SameView(s.act[a], x')
    ensures ListsOk(SetActor(s, a, x')) && UndecidedLinked(SetActor(s, a, x'))
  {
  }

  lemma {:induction false} LocalRefs(s: State, a: nat, x': Actor)
    requires RefsOk(s) && WindowsOk(s) && a < |s.act| && SameView(s.act[a], x')
    ensures RefsOk(SetActor(s, a, x')) && WindowsOk(SetActor(s, a, x'))
  {
  }

  lemma {:induction false} LocalChans(s: State, a: nat, x': Actor)
    requires ChansOk(s) && ListsOk(s) && LocksOk(s) && a < |s.act| && SameView(s.act[a], x')
    ensures ChansOk(SetActor(s, a, x'))
  {
    var s' := SetActor(s, a, x');
    forall c | 0 <= c < |s.chans|
      ensures ChanOk(s', s'.chans[c])
    {
      ChanChange(s, s', s.chans[c], s'.chans[c]);
    }
  }

  ghost predicate LocalOk(s: State, a: nat, s': State) {
    && a < |s.act| && |s'.act| == |s.act| && s' == SetActor(s, a, s'.act[a])
    && SameView(s.act[a], s'.act[a]) && ActorOk(s'.act[a]) && OpsOk(s'.act[a], |s.chans|)
  }

  lemma {:induction false} StartView(s: State, a: nat, op: Case, mode: Mode, e: Err, ops: seq<Case>, r: nat, b: bool, c: nat, s': State)
    requires ActorsOk(s)
    requires StartOp(s, a, op, mode, s') || Refuse(s, a, e, s') || StartSelect(s, a, ops, r, b, s') || StartClose(s, a, c, s')
    ensures LocalOk(s, a, s')
  {
  }

  lemma {:induction false} CancelView(s: State, a: nat, st: Status, s': State)
    requires ActorsOk(s)
    requires CancelSelect(s, a, st, s') || CancelEnd(s, a, s')
    ensures LocalOk(s, a, s')
  {
  }

  lemma {:induction false} ReturnView(s: State, a: nat, s': State)
    requires ActorsOk(s) && (Unpark(s, a, s') || Finish(s, a, s'))
    ensures LocalOk(s, a, s')
  {
  }

  lemma {:induction false} SelectView(s: State, a: nat, r: nat, s': State)
    requires ActorsOk(s)
    requires SelectInit(s, a, s') || RegisterDone(s, a, s') || Unblock(s, a, s') || UnregisterDone(s, a, r, s')
    ensures LocalOk(s, a, s')
  {
  }

  lemma {:induction false} LocalInv(s: State, a: nat, s': State)
    requires Inv(s) && LocalOk(s, a, s')
    ensures Inv(s')
  {
    LocalStep(s, a, s'.act[a]);
  }

  // ---------------------------------------------------------------- steps on one channel

  /** Actor a becomes x' and channel c becomes h'. */
  function Both(s: State, a: nat, x': Actor, c: nat, h': Chan): State
    requires a < |s.act| && c < |s.chans|
  {
    SetChan(SetActor(s, a, x'), c, h')
  }

  ghost predicate ChannelView(x: Actor, x': Actor, c: nat) {
    && (forall slot :: PlaceOf(x', slot) == PlaceOf(x, slot)
          || ((PlaceOf(x, slot).At? ==> PlaceOf(x, slot).c == c) && (PlaceOf(x', slot).At? ==> PlaceOf(x', slot).c == c)))
    && x'.winner == x.winner && x'.ops == x.ops
    && (forall slot :: Window(x, slot).By? || Window(x', slot).By? ==> Window(x', slot) == Window(x, slot))
    && Refs(x'.pc) == Refs(x.pc)
    && (forall c' :: c' != c ==> !Holds(x, c') && !Holds(x', c'))
  }

  ghost predicate ChannelLists(s: State, c: nat, h: Chan) {
    && ListOk(s, c, true, h.senders) && ListOk(s, c, false, h.receivers)
    && (forall n: Node :: n.cr < |s.act| && Undecided(s.act[n.cr], n.slot) && PlaceOf(s.act[n.cr], n.slot).c == c ==>
          n in List(h, PlaceOf(s.act[n.cr], n.slot).isSend))
  }

  lemma {:induction false} ChannelStep(s: State, a: nat, x': Actor, c: nat, h': Chan)
    requires Inv(s) && a < |s.act| && c < |s.chans|
    requires ChannelView(s.act[a], x', c) && ActorOk(x') && OpsOk(x', |s.chans|)
    requires s.chans[c].lock.Free? || Holds(s.act[a], c)
    requires h'.lock == if Holds(x', c) then HeldBy(a) else Free
    requires var s' := Both(s, a, x', c, h'); ChannelLists(s', c, h') && ChanOk(s', h')
    ensures Inv(Both(s, a, x', c, h'))
  {
    ChannelStepLists(s, a, x', c, h');
    ChannelStepRefs(s, a, x', c, h');
    ChannelStepLocks(s, a, x', c, h');
    var s' := Both(s, a, x', c, h');
    forall c' | 0 <= c' < |s.chans| && c' != c
      ensures ChanOk(s', s'.chans[c'])
    {
      ChanChange(s, s', s.chans[c'], s'.chans[c']);
    }
  }

  lemma {:induction false} ChannelStepLists(s: State, a: nat, x': Actor, c: nat, h': Chan)
    requires ListsOk(s) && UndecidedLinked(s) && a < |s.act| && c < |s.chans|
    requires ChannelView(s.act[a], x', c) && ChannelLists(Both(s, a, x', c, h'), c, h')
    ensures ListsOk(Both(s, a, x', c, h')) && UndecidedLinked(Both(s, a, x', c, h'))
  {
  }

  lemma {:induction false} ChannelStepRefs(s: State, a: nat, x': Actor, c: nat, h': Chan)
    requires RefsOk(s) && WindowsOk(s) && a < |s.act| && c < |s.chans| && ChannelView(s.act[a], x', c)
    ensures RefsOk(Both(s, a, x', c, h')) && WindowsOk(Both(s, a, x', c, h'))
  {
  }

  lemma {:induction false} ChannelStepLocks(s: State, a: nat, x': Actor, c: nat, h': Chan)
    requires LocksOk(s) && a < |s.act| && c < |s.chans| && ChannelView(s.act[a], x', c)
    requires s.chans[c].lock.Free? || Holds(s.act[a], c)
    requires h'.lock == if Holds(x', c) then HeldBy(a) else Free
    ensures LocksOk(Both(s, a, x', c, h'))
  {
  }

  // ---------------------------------------------------------------- the lists stay the same

  ghost predicate SameLists(s: State, a: nat, c: nat, s': State) {
    && a < |s.act| && c < |s.chans| && |s'.act| == |s.act| && |s'.chans| == |s.chans|
    && s' == Both(s, a, s'.act[a], c, s'.chans[c])
    && s'.chans[c].senders == s.chans[c].senders && s'.chans[c].receivers == s.chans[c].receivers
    && ChannelView(s.act[a], s'.act[a], c) && ActorOk(s'.act[a]) && OpsOk(s'.act[a], |s.chans|)
    && (forall slot :: PlaceOf(s'.act[a], slot) == PlaceOf(s.act[a], slot))
    && (s.chans[c].lock.Free? || Holds(s.act[a], c))
    && s'.chans[c].lock == (if Holds(s'.act[a], c) then HeldBy(a) else Free)
  }

  lemma {:induction false} SameListsStep(s: State, a: nat, c: nat, s': State)
    requires Inv(s) && SameLists(s, a, c, s') && ChanOk(s', s'.chans[c])
    ensures Inv(s')
  {
    assert ChannelLists(s', c, s'.chans[c]);
    ChannelStep(s, a, s'.act[a], c, s'.chans[c]);
  }

  ghost predicate HasCur(s: State, a: nat) {
    a < |s.act| && |s.act[a].ops| > 0 && (s.act[a].pc.Want? || s.act[a].pc.Taking? || s.act[a].pc.Refilling?)
  }

  function CurCase(s: State, a: nat): Case
    requires HasCur(s, a)
  {
    s.act[a].ops[Cur(s.act[a], s.act[a].pc.why)]
  }

  lemma {:induction false} AcquireShape(s: State, a: nat, s': State)
    requires ActorsOk(s) && LocksOk(s) && (Acquire(s, a, s') || PopRing(s, a, s'))
    ensures SameLists(s, a, CurCase(s, a).ch, s')
  {
    assert s.act[a].pc.Want? || Holds(s.act[a], CurCase(s, a).ch);
  }

  lemma {:induction false} HitShape(s: State, a: nat, s': State)
    requires ActorsOk(s) && (FindClosed(s, a, s') || PushRing(s, a, s') || RefillNone(s, a, s'))
    ensures SameLists(s, a, CurCase(s, a).ch, s')
  {
  }

  lemma {:induction false} MissShape(s: State, a: nat, s': State)
    requires ActorsOk(s) && Miss(s, a, s')
    ensures SameLists(s, a, CurCase(s, a).ch, s')
  {
  }

  /** The ring, and with it rcvd + ring == sent, survives every attempt that leaves the lists alone. */
  lemma {:induction false} AttemptChan(s: State, a: nat, s': State)
    requires ChansOk(s) && LocksOk(s)
    requires Acquire(s, a, s') || PopRing(s, a, s') || FindClosed(s, a, s') || PushRing(s, a, s') || RefillNone(s, a, s') || Miss(s, a, s')
    ensures ChanOk(s', s'.chans[CurCase(s, a).ch])
  {
    var c := CurCase(s, a).ch;
    assert s.act[a].pc.Want? || Holds(s.act[a], c);
    ChanChange(s, s', s.chans[c], s'.chans[c]);
  }

  lemma {:induction false} CloseShape(s: State, a: nat, s': State)
    requires ActorsOk(s) && a < |s.act| && (s.act[a].pc.CloseWant? || s.act[a].pc.Closing?) && s.act[a].pc.c < |s.chans|
    requires (CloseAcquire(s, a, s') && !s.chans[s.act[a].pc.c].closed) || CloseRelease(s, a, s')
    ensures SameLists(s, a, s.act[a].pc.c, s')
  {
  }

  lemma {:induction false} CloseChan(s: State, a: nat, s': State)
    requires ChansOk(s) && LocksOk(s) && a < |s.act| && (s.act[a].pc.CloseWant? || s.act[a].pc.Closing?) && s.act[a].pc.c < |s.chans|
    requires (CloseAcquire(s, a, s') && !s.chans[s.act[a].pc.c].closed) || CloseRelease(s, a, s')
    ensures ChanOk(s', s'.chans[s.act[a].pc.c])
  {
    var c := s.act[a].pc.c;
    assert s.act[a].pc.Closing? ==> Holds(s.act[a], c);
    ChanChange(s, s', s.chans[c], s'.chans[c]);
  }

  // ---------------------------------------------------------------- a node leaves or joins a list

  ghost predicate NewLists(s: State, a: nat, c: nat, side: bool, l: seq<Node>, s': State) {
    && a < |s.act| && c < |s.chans| && |s'.act| == |s.act| && |s'.chans| == |s.chans|
    && s' == Both(s, a, s'.act[a], c, s'.chans[c])
    && s'.chans[c] == WithList(s.chans[c], side, l).(lock := s'.chans[c].lock)
    && ChannelView(s.act[a], s'.act[a], c) && ActorOk(s'.act[a]) && OpsOk(s'.act[a], |s.chans|)
    && (s.chans[c].lock.Free? || Holds(s.act[a], c))
    && s'.chans[c].lock == (if Holds(s'.act[a], c) then HeldBy(a) else Free)
  }

  /** A node that is no undecided wait any more leaves the list. */
  lemma {:induction false} DropStep(s: State, a: nat, c: nat, side: bool, n: Node, l: seq<Node>, s': State)
    requires Inv(s) && NewLists(s, a, c, side, l, s')
    requires NoDup(l) && forall m :: m in l <==> m in List(s.chans[c], side) && m != n
    requires n.cr < |s.act| && !Undecided(s'.act[n.cr], n.slot)
    requires forall slot :: Node(a, slot) != n ==> PlaceOf(s'.act[a], slot) == PlaceOf(s.act[a], slot)
    requires n.cr == a ==> PlaceOf(s.act[a], n.slot) == Nowhere || PlaceOf(s.act[a], n.slot) == At(c, side)
    requires ChanOk(s', s'.chans[c])
    ensures Inv(s')
  {
    DropLists(s, a, c, side, n, l, s');
    ChannelStep(s, a, s'.act[a], c, s'.chans[c]);
  }

  lemma {:induction false} DropLists(s: State, a: nat, c: nat, side: bool, n: Node, l: seq<Node>, s': State)
    requires ListsOk(s) && UndecidedLinked(s) && NewLists(s, a, c, side, l, s')
    requires NoDup(l) && forall m :: m in l <==> m in List(s.chans[c], side) && m != n
    requires n.cr < |s.act| && !Undecided(s'.act[n.cr], n.slot)
    requires forall slot :: Node(a, slot) != n ==> PlaceOf(s'.act[a], slot) == PlaceOf(s.act[a], slot)
    requires n.cr == a ==> PlaceOf(s.act[a], n.slot) == Nowhere || PlaceOf(s.act[a], n.slot) == At(c, side)
    ensures ChannelLists(s', c, s'.chans[c])
  {
  }

  lemma {:induction false} DiscardOk(s: State, a: nat, s': State)
    requires Inv(s) && Discard(s, a, s')
    ensures Inv(s')
  {
    var op := CurCase(s, a);
    var l := List(s.chans[op.ch], !op.isSend);
    assert l == [l[0]] + l[1..];
    assert Holds(s.act[a], op.ch);
    assert s' == Both(s, a, s.act[a], op.ch, s'.chans[op.ch]);
    ChanChange(s, s', s.chans[op.ch], s'.chans[op.ch]);
    DropStep(s, a, op.ch, !op.isSend, l[0], l[1..], s');
  }

  lemma {:induction false} CancelWaitOk(s: State, a: nat, st: Status, s': State)
    requires Inv(s) && CancelWait(s, a, st, s')
    ensures Inv(s')
  {
    var op := s.act[a].ops[0];
    var n := Node(a, Own);
    var l := List(s.chans[op.ch], op.isSend);
    RemoveFacts(l, n);
    ChanChange(s, s', s.chans[op.ch], s'.chans[op.ch]);
    DropStep(s, a, op.ch, op.isSend, n, Remove(l, n), s');
  }

  lemma {:induction false} UnregisterOk(s: State, a: nat, s': State)
    requires Inv(s) && Unregister(s, a, s')
    ensures Inv(s')
  {
    var n := Node(a, Stack(s.act[a].pc.j));
    var op := s.act[a].ops[s.act[a].pc.j];
    var l := List(s.chans[op.ch], op.isSend);
    RemoveFacts(l, n);
    ChanChange(s, s', s.chans[op.ch], s'.chans[op.ch]);
    DropStep(s, a, op.ch, op.isSend, n, Remove(l, n), s');
  }

  /** A node joins a list whose counterpart list has no waiter but the actor's own. */
  lemma {:induction false} AddStep(s: State, a: nat, c: nat, slot: Slot, side: bool, s': State)
    requires Inv(s) && a < |s.act| && c < |s.chans|
    requires NewLists(s, a, c, side, List(s.chans[c], side) + [Node(a, slot)], s')
    requires PlaceOf(s.act[a], slot) == Nowhere && PlaceOf(s'.act[a], slot) == At(c, side)
    requires forall o :: o != slot ==> PlaceOf(s'.act[a], o) == PlaceOf(s.act[a], o)
    requires forall n :: n in List(s.chans[c], !side) ==> n.cr == a
    requires if side then Full(s', s'.chans[c]) else Drained(s', s'.chans[c])
    requires RingOk(s', s'.chans[c]) && !Refilled(s, s.chans[c]) && !Refilled(s', s'.chans[c])
    ensures Inv(s')
  {
    AddLists(s, a, c, slot, side, s');
    AddChan(s, a, c, slot, side, s');
    ChannelStep(s, a, s'.act[a], c, s'.chans[c]);
  }

  lemma {:induction false} AddLists(s: State, a: nat, c: nat, slot: Slot, side: bool, s': State)
    requires ListsOk(s) && UndecidedLinked(s) && a < |s.act| && c < |s.chans|
    requires NewLists(s, a, c, side, List(s.chans[c], side) + [Node(a, slot)], s')
    requires PlaceOf(s.act[a], slot) == Nowhere && PlaceOf(s'.act[a], slot) == At(c, side)
    requires forall o :: o != slot ==> PlaceOf(s'.act[a], o) == PlaceOf(s.act[a], o)
    ensures ChannelLists(s', c, s'.chans[c])
  {
    assert Node(a, slot) !in List(s.chans[c], side);
  }

  /** Only the new node is new among the live ones. */
  lemma {:induction false} AddLive(s: State, a: nat, c: nat, slot: Slot, side: bool, s': State, l: bool, n: Node)
    requires a < |s.act| && c < |s.chans|
    requires NewLists(s, a, c, side, List(s.chans[c], side) + [Node(a, slot)], s')
    requires LiveIn(s', List(s'.chans[c], l), n)
    ensures LiveIn(s, List(s.chans[c], l), n) || (n == Node(a, slot) && l == side)
  {
  }

  lemma {:induction false} AddChan(s: State, a: nat, c: nat, slot: Slot, side: bool, s': State)
    requires ChansOk(s) && a < |s.act| && c < |s.chans|
    requires NewLists(s, a, c, side, List(s.chans[c], side) + [Node(a, slot)], s')
    requires forall n :: n in List(s.chans[c], !side) ==> n.cr == a
    requires if side then Full(s', s'.chans[c]) else Drained(s', s'.chans[c])
    requires RingOk(s', s'.chans[c]) && !Refilled(s, s.chans[c]) && !Refilled(s', s'.chans[c])
    ensures ChanOk(s', s'.chans[c])
  {
    var h, h' := s.chans[c], s'.chans[c];
    assert ChanOk(s, h);
    forall n | LiveIn(s', h'.senders, n)
      ensures Full(s', h') && (n.cr == a || LiveIn(s, h.senders, n))
    {
      AddLive(s, a, c, slot, side, s', true, n);
    }
    forall n | LiveIn(s', h'.receivers, n)
      ensures Drained(s', h') && (n.cr == a || LiveIn(s, h.receivers, n))
    {
      AddLive(s, a, c, slot, side, s', false, n);
    }
    assert side ==> h'.receivers == h.receivers;
    assert !side ==> h'.senders == h.senders;
  }

  lemma {:induction false} ParkOk(s: State, a: nat, s': State)
    requires Inv(s) && Park(s, a, s')
    ensures Inv(s')
  {
    var op := CurCase(s, a);
    assert Holds(s.act[a], op.ch);
    AddStep(s, a, op.ch, Own, op.isSend, s');
  }

  lemma {:induction false} RegisterView(s: State, a: nat, s': State)
    requires ActorsOk(s) && Register(s, a, s')
    ensures var i := s.act[a].pc.i;
      var op := s.act[a].ops[i];
      if CaseReady(s.chans[op.ch], op.isSend, a) then LocalOk(s, a, s')
      else && NewLists(s, a, op.ch, op.isSend, List(s.chans[op.ch], op.isSend) + [Node(a, Stack(i))], s')
           && PlaceOf(s.act[a], Stack(i)) == Nowhere && PlaceOf(s'.act[a], Stack(i)) == At(op.ch, op.isSend)
           && (forall o :: o != Stack(i) ==> PlaceOf(s'.act[a], o) == PlaceOf(s.act[a], o))
  {
  }

  lemma {:induction false} RegisterOk(s: State, a: nat, s': State)
    requires Inv(s) && Register(s, a, s')
    ensures Inv(s')
  {
    var i := s.act[a].pc.i;
    var op := s.act[a].ops[i];
    RegisterView(s, a, s');
    if CaseReady(s.chans[op.ch], op.isSend, a) {
      LocalStep(s, a, s'.act[a]);
    } else {
      AddStep(s, a, op.ch, Stack(i), op.isSend, s');
    }
  }

  // ---------------------------------------------------------------- grants

  /** Actor a decides n with st; nothing but these two actors and channel c changes. */
  ghost predicate GrantFrame(s: State, a: nat, n: Node, st: Status, v: Val, c: nat, s': State) {
    && a < |s.act| && c < |s.chans| && |s'.act| == |s.act| && |s'.chans| == |s.chans|
    && n.cr < |s.act| && n.cr != a && (st == Ok || st == Closed)
    && ActorOk(s.act[n.cr]) && Undecided(s.act[n.cr], n.slot)
    && s'.act[n.cr] == Granted(s.act[n.cr], n.slot, st, a, v)
    && (forall x :: 0 <= x < |s.act| && x != a && x != n.cr ==> s'.act[x] == s.act[x])
    && (forall d :: 0 <= d < |s.chans| && d != c ==> s'.chans[d] == s.chans[d])
  }

  /** The granter's own nodes and windows are closed; it gains the window on n. */
  ghost predicate GrantRefsShape(s: State, a: nat, n: Node, s': State)
    requires a < |s.act| && |s'.act| == |s.act|
  {
    && (forall slot :: !Window(s.act[a], slot).By? && !Window(s'.act[a], slot).By?)
    && Refs(s'.act[a].pc) == [n] + Refs(s.act[a].pc)
  }

  ghost predicate GrantLockShape(s: State, a: nat, c: nat, s': State)
    requires a < |s.act| && |s'.act| == |s.act| && c < |s.chans| && |s'.chans| == |s.chans|
  {
    && Holds(s.act[a], c) && (forall d :: d != c ==> !Holds(s.act[a], d) && !Holds(s'.act[a], d))
    && s'.chans[c].lock == (if Holds(s'.act[a], c) then HeldBy(a) else Free)
  }

  /** n is the head of the given list of c and is popped from it. */
  ghost predicate GrantListShape(s: State, a: nat, n: Node, c: nat, side: bool, s': State)
    requires a < |s.act| && |s'.act| == |s.act| && c < |s.chans| && |s'.chans| == |s.chans|
  {
    && List(s.chans[c], side) == [n] + List(s'.chans[c], side)
    && List(s.chans[c], !side) == List(s'.chans[c], !side)
    && (forall slot :: PlaceOf(s.act[a], slot) == Nowhere && PlaceOf(s'.act[a], slot) == Nowhere)
  }

  /** What a grant does to the waiter, seen from the rest of the machine. */
  lemma {:induction false} GrantedView(x: Actor, slot: Slot, st: Status, a: nat, v: Val)
    requires ActorOk(x) && Undecided(x, slot) && (st == Ok || st == Closed)
    ensures var y := Granted(x, slot, st, a, v);
      && ActorOk(y) && y.pc == x.pc && y.ops == x.ops
      && PlaceOf(y, slot) == Nowhere && (forall o :: o != slot ==> PlaceOf(y, o) == PlaceOf(x, o))
      && (forall o :: !Undecided(y, o))
      && Window(y, slot) == By(a)
      && (forall o :: o != slot ==> !Window(y, o).By?) && (forall o :: !Window(x, o).By?)
  {
  }

  lemma {:induction false} TailNoDup(n: Node, l: seq<Node>)
    requires NoDup([n] + l)
    ensures n !in l && NoDup(l)
  {
    var m := [n] + l;
    assert m[0] == n && forall i :: 0 <= i < |l| ==> l[i] == m[i + 1];
  }

  lemma {:induction false} GrantLists(s: State, a: nat, n: Node, st: Status, v: Val, c: nat, side: bool, s': State)
    requires ListsOk(s)
    requires GrantFrame(s, a, n, st, v, c, s') && GrantListShape(s, a, n, c, side, s')
    ensures ListsOk(s')
  {
    var l := List(s'.chans[c], side);
    assert PlaceOf(s.act[n.cr], n.slot) == At(c, side) by { assert n in [n] + l; }
    GrantedView(s.act[n.cr], n.slot, st, a, v);
    TailNoDup(n, l);
    assert forall m :: m in List(s.chans[c], side) <==> m == n || m in l;
    assert ListOk(s', c, side, l);
    assert ListOk(s', c, !side, List(s'.chans[c], !side));
  }

  lemma {:induction false} GrantLinked(s: State, a: nat, n: Node, st: Status, v: Val, c: nat, side: bool, s': State)
    requires UndecidedLinked(s)
    requires GrantFrame(s, a, n, st, v, c, s') && GrantListShape(s, a, n, c, side, s')
    ensures UndecidedLinked(s')
  {
    GrantedView(s.act[n.cr], n.slot, st, a, v);
    assert forall m :: m in List(s.chans[c], side) <==> m == n || m in List(s'.chans[c], side);
  }

  lemma {:induction false} GrantRefs(s: State, a: nat, n: Node, st: Status, v: Val, c: nat, s': State)
    requires RefsOk(s) && WindowsOk(s) && GrantFrame(s, a, n, st, v, c, s') && GrantRefsShape(s, a, n, s')
    ensures RefsOk(s') && WindowsOk(s')
  {
    GrantedView(s.act[n.cr], n.slot, st, a, v);
    assert n !in Refs(s.act[a].pc);
    assert n in Refs(s'.act[a].pc);
  }

  lemma {:induction false} GrantLocks(s: State, a: nat, n: Node, st: Status, v: Val, c: nat, s': State)
    requires LocksOk(s) && GrantFrame(s, a, n, st, v, c, s') && GrantLockShape(s, a, c, s')
    ensures LocksOk(s')
  {
    GrantedView(s.act[n.cr], n.slot, st, a, v);
    assert forall d :: Holds(s'.act[n.cr], d) == Holds(s.act[n.cr], d);
    assert s.chans[c].lock == HeldBy(a);
    assert forall x :: 0 <= x < |s.act| && Holds(s.act[x], c) ==> HeldBy(x) == HeldBy(a);
  }

  lemma {:induction false} GrantChans(s: State, a: nat, n: Node, st: Status, v: Val, c: nat, s': State)
    requires ChansOk(s) && LocksOk(s) && GrantFrame(s, a, n, st, v, c, s') && GrantLockShape(s, a, c, s')
    requires ChanOk(s', s'.chans[c]) && s'.act[a].winner == s.act[a].winner
    ensures ChansOk(s')
  {
    GrantedView(s.act[n.cr], n.slot, st, a, v);
    forall d | 0 <= d < |s.chans| && d != c
      ensures ChanOk(s', s'.chans[d])
    {
      assert s'.chans[d] == s.chans[d];
      assert forall m: Node :: m.cr < |s.act| && Live(s', m) ==> Live(s, m);
      ChanChange(s, s', s.chans[d], s.chans[d]);
    }
  }

  lemma {:induction false} GrantStep(s: State, a: nat, n: Node, st: Status, v: Val, c: nat, side: bool, s': State)
    requires Inv(s) && GrantFrame(s, a, n, st, v, c, s')
    requires GrantListShape(s, a, n, c, side, s') && GrantRefsShape(s, a, n, s') && GrantLockShape(s, a, c, s')
    requires ActorOk(s'.act[a]) && OpsOk(s'.act[a], |s.chans|) && s'.act[a].winner == s.act[a].winner
    requires ChanOk(s', s'.chans[c])
    ensures Inv(s')
  {
    GrantLists(s, a, n, st, v, c, side, s');
    GrantLinked(s, a, n, st, v, c, side, s');
    GrantRefs(s, a, n, st, v, c, s');
    GrantLocks(s, a, n, st, v, c, s');
    GrantChans(s, a, n, st, v, c, s');
    GrantedView(s.act[n.cr], n.slot, st, a, v);
  }

  /** A popped live head is an undecided wait for that list. */
  lemma {:induction false} HeadUndecided(s: State, c: nat, side: bool, n: Node)
    requires ListsOk(s) && c < |s.chans| && LiveIn(s, List(s.chans[c], side), n)
    ensures PlaceOf(s.act[n.cr], n.slot) == At(c, side) && Undecided(s.act[n.cr], n.slot)
  {
  }

  lemma {:induction false} HandOffOk(s: State, a: nat, s': State)
    requires Inv(s) && HandOff(s, a, s')
    ensures Inv(s')
  {
    var op := CurCase(s, a);
    var h := s.chans[op.ch];
    var n := h.receivers[0];
    assert LiveIn(s, List(h, false), n);
    HeadUndecided(s, op.ch, false, n);
    assert h.receivers == [n] + h.receivers[1..];
    HandOffChan(s, a, s');
    GrantStep(s, a, n, Ok, op.val, op.ch, false, s');
  }

  lemma {:induction false} HandOffChan(s: State, a: nat, s': State)
    requires ChansOk(s) && LocksOk(s) && ListsOk(s) && HandOff(s, a, s')
    ensures ChanOk(s', s'.chans[CurCase(s, a).ch])
  {
    var c := CurCase(s, a).ch;
    assert Holds(s.act[a], c);
    assert LiveIn(s, s.chans[c].receivers, s.chans[c].receivers[0]);
    ChanChange(s, s', s.chans[c], s'.chans[c]);
  }

  lemma {:induction false} RefillShape(s: State, a: nat, s': State, c: nat, n: Node)
    requires ActorsOk(s) && ListsOk(s) && LocksOk(s) && Refill(s, a, s') && c == CurCase(s, a).ch && n == s.chans[c].senders[0]
    ensures GrantFrame(s, a, n, Ok, s.act[n.cr].got, c, s')
    ensures GrantListShape(s, a, n, c, true, s') && GrantRefsShape(s, a, n, s') && GrantLockShape(s, a, c, s')
    ensures ActorOk(s'.act[a]) && OpsOk(s'.act[a], |s.chans|) && s'.act[a].winner == s.act[a].winner
  {
    var h := s.chans[c];
    assert LiveIn(s, List(h, true), n);
    HeadUndecided(s, c, true, n);
    assert h.senders == [n] + h.senders[1..];
  }

  lemma {:induction false} RefillOk(s: State, a: nat, s': State)
    requires Inv(s) && Refill(s, a, s')
    ensures Inv(s')
  {
    var c := CurCase(s, a).ch;
    var n := s.chans[c].senders[0];
    RefillShape(s, a, s', c, n);
    RefillChan(s, a, s');
    GrantStep(s, a, n, Ok, s.act[n.cr].got, c, true, s');
  }

  lemma {:induction false} RefillChan(s: State, a: nat, s': State)
    requires ChansOk(s) && LocksOk(s) && ListsOk(s) && (Refill(s, a, s') || TakeDirect(s, a, s'))
    ensures ChanOk(s', s'.chans[CurCase(s, a).ch])
  {
    var c := CurCase(s, a).ch;
    assert Holds(s.act[a], c);
    assert LiveIn(s, s.chans[c].senders, s.chans[c].senders[0]);
    ChanChange(s, s', s.chans[c], s'.chans[c]);
  }

  lemma {:induction false} TakeDirectOk(s: State, a: nat, s': State)
    requires Inv(s) && TakeDirect(s, a, s')
    ensures Inv(s')
  {
    var c := CurCase(s, a).ch;
    var h := s.chans[c];
    var n := h.senders[0];
    assert LiveIn(s, List(h, true), n);
    HeadUndecided(s, c, true, n);
    assert h.senders == [n] + h.senders[1..];
    RefillChan(s, a, s');
    GrantStep(s, a, n, Ok, s.act[n.cr].got, c, true, s');
  }

  lemma {:induction false} CloseTakeChan(s: State, a: nat, s': State)
    requires ChansOk(s) && LocksOk(s) && ListsOk(s) && CloseTake(s, a, s')
    ensures ChanOk(s', s'.chans[s.act[a].pc.c])
  {
    var c := s.act[a].pc.c;
    assert Holds(s.act[a], c);
    ChanChange(s, s', s.chans[c], s'.chans[c]);
  }

  lemma {:induction false} CloseGrantShape(s: State, a: nat, s': State, c: nat, side: bool, n: Node)
    requires ActorsOk(s) && ListsOk(s) && LocksOk(s) && CloseTake(s, a, s') && c == s.act[a].pc.c && side == (s.chans[c].senders != [])
    requires n == List(s.chans[c], side)[0] && Live(s, n)
    ensures GrantFrame(s, a, n, Closed, s.act[n.cr].got, c, s')
    ensures GrantListShape(s, a, n, c, side, s') && GrantRefsShape(s, a, n, s') && GrantLockShape(s, a, c, s')
    ensures ActorOk(s'.act[a]) && OpsOk(s'.act[a], |s.chans|) && s'.act[a].winner == s.act[a].winner
  {
    var l := List(s.chans[c], side);
    assert l == [n] + l[1..];
    assert LiveIn(s, l, n);
    HeadUndecided(s, c, side, n);
  }

  lemma {:induction false} CloseGrantOk(s: State, a: nat, s': State)
    requires Inv(s) && CloseTake(s, a, s') && ChanOk(s', s'.chans[s.act[a].pc.c])
    requires var h := s.chans[s.act[a].pc.c]; Live(s, List(h, h.senders != [])[0])
    ensures Inv(s')
  {
    var c := s.act[a].pc.c;
    var side := s.chans[c].senders != [];
    var n := List(s.chans[c], side)[0];
    CloseGrantShape(s, a, s', c, side, n);
    GrantStep(s, a, n, Closed, s.act[n.cr].got, c, side, s');
  }

  lemma {:induction false} CloseDiscardOk(s: State, a: nat, s': State)
    requires Inv(s) && CloseTake(s, a, s') && ChanOk(s', s'.chans[s.act[a].pc.c])
    requires var h := s.chans[s.act[a].pc.c]; !Live(s, List(h, h.senders != [])[0])
    ensures Inv(s')
  {
    var c := s.act[a].pc.c;
    var h := s.chans[c];
    var l := List(h, h.senders != []);
    assert Holds(s.act[a], c);
    assert l == [l[0]] + l[1..];
    TailNoDup(l[0], l[1..]);
    assert s' == Both(s, a, s.act[a], c, s'.chans[c]);
    DropStep(s, a, c, h.senders != [], l[0], l[1..], s');
  }

  lemma {:induction false} CloseTakeOk(s: State, a: nat, s': State)
    requires Inv(s) && CloseTake(s, a, s')
    ensures Inv(s')
  {
    var h := s.chans[s.act[a].pc.c];
    CloseTakeChan(s, a, s');
    if Live(s, List(h, h.senders != [])[0]) {
      CloseGrantOk(s, a, s');
    } else {
      CloseDiscardOk(s, a, s');
    }
  }

  // ---------------------------------------------------------------- closing decider windows

  function ReleaseBy(s: State, a: nat, n: Node, x': Actor): State
    requires a < |s.act| && n.cr < |s.act|
  {
    SetActor(SetActor(s, n.cr, Released(s.act[n.cr], n.slot)), a, x')
  }

  lemma {:induction false} ReleaseStep(s: State, a: nat, n: Node, x': Actor)
    requires Inv(s) && a < |s.act| && RefOk(s, a, n)
    requires Refs(s.act[a].pc) == [n] + Refs(x'.pc)
    requires forall slot :: PlaceOf(s.act[a], slot) == Nowhere && PlaceOf(x', slot) == Nowhere
    requires forall slot :: !Window(s.act[a], slot).By? && !Window(x', slot).By?
    requires forall c :: !Holds(s.act[a], c) && !Holds(x', c)
    requires x'.winner == s.act[a].winner && ActorOk(x') && OpsOk(x', |s.chans|)
    ensures Inv(ReleaseBy(s, a, n, x'))
  {
    ReleasedView(s.act[n.cr], n.slot);
    ReleaseRefs(s, a, n, x');
    ReleaseWindows(s, a, n, x');
    ReleaseLists(s, a, n, x');
    ReleaseChans(s, a, n, x');
  }

  lemma {:induction false} ReleaseLists(s: State, a: nat, n: Node, x': Actor)
    requires ActorsOk(s) && ListsOk(s) && UndecidedLinked(s) && a < |s.act| && RefOk(s, a, n)
    requires forall slot :: PlaceOf(s.act[a], slot) == Nowhere && PlaceOf(x', slot) == Nowhere
    ensures ListsOk(ReleaseBy(s, a, n, x')) && UndecidedLinked(ReleaseBy(s, a, n, x'))
  {
    ReleasedView(s.act[n.cr], n.slot);
  }

  lemma {:induction false} ReleaseLocks(s: State, a: nat, n: Node, x': Actor)
    requires LocksOk(s) && a < |s.act| && n.cr < |s.act| && n.cr != a
    requires forall c :: !Holds(s.act[a], c) && !Holds(x', c)
    ensures LocksOk(ReleaseBy(s, a, n, x'))
  {
    assert forall c :: Holds(Released(s.act[n.cr], n.slot), c) == Holds(s.act[n.cr], c);
  }

  lemma {:induction false} ReleaseChans(s: State, a: nat, n: Node, x': Actor)
    requires ActorsOk(s) && LocksOk(s) && ChansOk(s) && a < |s.act| && RefOk(s, a, n)
    requires forall c :: !Holds(s.act[a], c) && !Holds(x', c)
    requires x'.winner == s.act[a].winner
    ensures LocksOk(ReleaseBy(s, a, n, x')) && ChansOk(ReleaseBy(s, a, n, x'))
  {
    ReleasedView(s.act[n.cr], n.slot);
    var s' := ReleaseBy(s, a, n, x');
    ReleaseLocks(s, a, n, x');
    forall c | 0 <= c < |s.chans|
      ensures ChanOk(s', s'.chans[c])
    {
      ChanChange(s, s', s.chans[c], s.chans[c]);
    }
  }

  lemma {:induction false} ReleasedView(x: Actor, slot: Slot)
    requires ActorOk(x) && Window(x, slot).By?
    ensures var y := Released(x, slot);
      && ActorOk(y) && y.pc == x.pc && y.ops == x.ops && y.winner == x.winner
      && (forall o :: PlaceOf(y, o) == PlaceOf(x, o) && Undecided(y, o) == Undecided(x, o))
      && Window(y, slot) == No && (forall o :: o != slot && Window(y, o).By? ==> Window(y, o) == Window(x, o))
      && (forall o :: o != slot && Window(x, o).By? ==> Window(y, o) == Window(x, o))
  {
  }

  lemma {:induction false} ReleaseRef(s: State, a: nat, n: Node, x': Actor, b: nat, m: Node)
    requires RefsOk(s) && a < |s.act| && RefOk(s, a, n) && ActorOk(s.act[n.cr]) && b < |s.act|
    requires Refs(s.act[a].pc) == [n] + Refs(x'.pc) && m in Refs(ReleaseBy(s, a, n, x').act[b].pc)
    ensures RefOk(ReleaseBy(s, a, n, x'), b, m)
  {
    ReleasedView(s.act[n.cr], n.slot);
    TailNoDup(n, Refs(x'.pc));
    assert m in Refs(s.act[b].pc);
    assert RefOk(s, b, m);
  }

  lemma {:induction false} ReleaseRefs(s: State, a: nat, n: Node, x': Actor)
    requires ActorsOk(s) && RefsOk(s) && a < |s.act| && RefOk(s, a, n)
    requires Refs(s.act[a].pc) == [n] + Refs(x'.pc)
    ensures RefsOk(ReleaseBy(s, a, n, x'))
  {
    var s' := ReleaseBy(s, a, n, x');
    forall b: nat, m | b < |s.act| && m in Refs(s'.act[b].pc)
      ensures RefOk(s', b, m)
    {
      ReleaseRef(s, a, n, x', b, m);
    }
    TailNoDup(n, Refs(x'.pc));
    forall b: nat | b < |s.act|
      ensures NoDup(Refs(s'.act[b].pc))
    {
      assert b != a ==> s'.act[b].pc == s.act[b].pc;
    }
  }

  lemma {:induction false} ReleaseWindows(s: State, a: nat, n: Node, x': Actor)
    requires ActorsOk(s) && WindowsOk(s) && a < |s.act| && RefOk(s, a, n)
    requires Refs(s.act[a].pc) == [n] + Refs(x'.pc)
    requires forall slot :: !Window(s.act[a], slot).By? && !Window(x', slot).By?
    ensures WindowsOk(ReleaseBy(s, a, n, x'))
  {
    ReleasedView(s.act[n.cr], n.slot);
    assert forall m :: m in Refs(s.act[a].pc) <==> m == n || m in Refs(x'.pc);
  }

  lemma {:induction false} WakeEndOk(s: State, a: nat, s': State)
    requires Inv(s) && WakeEnd(s, a, s')
    ensures Inv(s')
  {
    var n := s.act[a].pc.n;
    assert n in Refs(s.act[a].pc);
    ReleaseStep(s, a, n, s'.act[a]);
  }

  lemma {:induction false} EndOneOk(s: State, a: nat, s': State)
    requires Inv(s) && EndOne(s, a, s')
    ensures Inv(s')
  {
    var g := s.act[a].pc.granted;
    if g == [] {
      LocalStep(s, a, s'.act[a]);
    } else {
      assert g[0] in Refs(s.act[a].pc) && g == [g[0]] + g[1..];
      ReleaseStep(s, a, g[0], s'.act[a]);
    }
  }

  // ---------------------------------------------------------------- every step

  lemma {:induction false} InitialInv(s: State)
    requires Initial(s)
    ensures Inv(s)
  {
  }

  lemma {:induction false} LocalNext(s: State, a: nat, st: Step, s': State)
    requires ActorsOk(s) && NextStep(s, a, st, s') && IsLocal(st)
    ensures LocalOk(s, a, s')
  {
    var op := Case(0, true, 0);
    match st {
      case DoStartOp(op, mode) => StartView(s, a, op, mode, EError, [], 0, true, 0, s');
      case DoRefuse(e) => StartView(s, a, op, TryOnly, e, [], 0, true, 0, s');
      case DoStartSelect(ops, r, b) => StartView(s, a, op, TryOnly, EError, ops, r, b, 0, s');
      case DoStartClose(c) => StartView(s, a, op, TryOnly, EError, [], 0, true, c, s');
      case DoCancelSelect(k) => CancelView(s, a, k, s');
      case DoCancelEnd => CancelView(s, a, Ok, s');
      case DoUnpark => ReturnView(s, a, s');
      case DoFinish => ReturnView(s, a, s');
      case DoInit => SelectView(s, a, 0, s');
      case DoRegisterDone => SelectView(s, a, 0, s');
      case DoUnblock => SelectView(s, a, 0, s');
      case DoUnregisterDone(r) => SelectView(s, a, r, s');
      case _ =>
    }
  }

  predicate IsLocal(st: Step) {
    || st.DoStartOp? || st.DoRefuse? || st.DoStartSelect? || st.DoStartClose? || st.DoCancelSelect? || st.DoCancelEnd?
    || st.DoUnpark? || st.DoFinish? || st.DoInit? || st.DoRegisterDone? || st.DoUnblock? || st.DoUnregisterDone?
  }

  lemma {:induction false} AttemptOk(s: State, a: nat, s': State)
    requires Inv(s)
    requires Acquire(s, a, s') || PopRing(s, a, s') || FindClosed(s, a, s') || PushRing(s, a, s') || RefillNone(s, a, s') || Miss(s, a, s')
    ensures Inv(s')
  {
    var c := CurCase(s, a).ch;
    AttemptChan(s, a, s');
    if Miss(s, a, s') {
      MissShape(s, a, s');
    } else if Acquire(s, a, s') || PopRing(s, a, s') {
      AcquireShape(s, a, s');
    } else {
      HitShape(s, a, s');
    }
    SameListsStep(s, a, c, s');
  }

  predicate IsAttempt(st: Step) {
    st.DoAcquire? || st.DoPopRing? || st.DoFindClosed? || st.DoPushRing? || st.DoRefillNone? || st.DoMiss?
  }

  predicate IsClose(st: Step) {
    st.DoCloseAcquire? || st.DoCloseTake? || st.DoCloseRelease? || st.DoEndOne? || st.DoWakeEnd?
  }

  predicate IsGrant(st: Step) {
    st.DoHandOff? || st.DoRefill? || st.DoTakeDirect?
  }

  lemma {:induction false} AttemptNext(s: State, a: nat, st: Step, s': State)
    requires Inv(s) && NextStep(s, a, st, s') && IsAttempt(st)
    ensures Inv(s')
  {
    AttemptOk(s, a, s');
  }

  lemma {:induction false} CloseNext(s: State, a: nat, st: Step, s': State)
    requires Inv(s) && NextStep(s, a, st, s') && IsClose(st)
    ensures Inv(s')
  {
    match st {
      case DoCloseAcquire => CloseAcquireOk(s, a, s');
      case DoCloseTake => CloseTakeOk(s, a, s');
      case DoCloseRelease => CloseReleaseOk(s, a, s');
      case DoEndOne => EndOneOk(s, a, s');
      case DoWakeEnd => WakeEndOk(s, a, s');
      case _ =>
    }
  }

  lemma {:induction false} GrantNext(s: State, a: nat, st: Step, s': State)
    requires Inv(s) && NextStep(s, a, st, s') && IsGrant(st)
    ensures Inv(s')
  {
    match st {
      case DoHandOff => HandOffOk(s, a, s');
      case DoRefill => RefillOk(s, a, s');
      case DoTakeDirect => TakeDirectOk(s, a, s');
      case _ =>
    }
  }

  lemma {:induction false} ListNext(s: State, a: nat, st: Step, s': State)
    requires Inv(s) && NextStep(s, a, st, s') && !IsLocal(st) && !IsAttempt(st) && !IsClose(st) && !IsGrant(st)
    ensures Inv(s')
  {
    match st {
      case DoDiscard => DiscardOk(s, a, s');
      case DoPark => ParkOk(s, a, s');
      case DoCancelWait(k) => CancelWaitOk(s, a, k, s');
      case DoRegister => RegisterOk(s, a, s');
      case DoUnregister => UnregisterOk(s, a, s');
      case _ =>
    }
  }

  /** Every step keeps the invariant. */
  lemma {:induction false} NextInv(s: State, a: nat, st: Step, s': State)
    requires Inv(s) && NextStep(s, a, st, s')
    ensures Inv(s')
  {
    if IsLocal(st) {
      LocalNext(s, a, st, s');
      LocalInv(s, a, s');
    } else if IsAttempt(st) {
      AttemptNext(s, a, st, s');
    } else if IsClose(st) {
      CloseNext(s, a, st, s');
    } else if IsGrant(st) {
      GrantNext(s, a, st, s');
    } else {
      ListNext(s, a, st, s');
    }
  }

  lemma {:induction false} CloseReleaseOk(s: State, a: nat, s': State)
    requires Inv(s) && CloseRelease(s, a, s')
    ensures Inv(s')
  {
    CloseShape(s, a, s');
    CloseChan(s, a, s');
    SameListsStep(s, a, s.act[a].pc.c, s');
  }

  lemma {:induction false} CloseAcquireOk(s: State, a: nat, s': State)
    requires Inv(s) && CloseAcquire(s, a, s')
    ensures Inv(s')
  {
    if s.chans[s.act[a].pc.c].closed {
      LocalStep(s, a, s'.act[a]);
    } else {
      CloseShape(s, a, s');
      CloseChan(s, a, s');
      SameListsStep(s, a, s.act[a].pc.c, s');
    }
  }

  /** The invariant holds at every point of every run. */
  lemma {:induction false} RunInv(t: seq<State>, i: nat)
    requires Run(t) && i < |t|
    ensures Inv(t[i])
  {
    if i == 0 {
      InitialInv(t[0]);
    } else {
      RunInv(t, i - 1);
      assert Next(t[i - 1], t[i - 1 + 1]);
      var a: nat, st: Step :| NextStep(t[i - 1], a, st, t[i]);
      NextInv(t[i - 1], a, st, t[i]);
    }
  }
}
