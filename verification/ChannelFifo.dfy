/** Every step of the channel machine is a step of one FIFO queue per channel, and every completion moves a value. */
module ChannelFifo {
  import opened Lists
  import opened Channels
  import opened ChannelInvariant

  // ---------------------------------------------------------------- the queue a channel stands for

  /** The values of the live nodes of l that are not in w, in list order. */
  ghost function ValsBut(s: State, l: seq<Node>, w: set<Node>): seq<Val> {
    if l == [] then []
    else (if l[0] !in w && InRange(s, l[0]) && Live(s, l[0]) then [CaseOf(s, l[0]).val] else [])
         + ValsBut(s, l[1..], w)
  }

  /** The ring, then the values of the senders that are parked and still undecided. */
  ghost function Queue(s: State, c: nat): seq<Val>
    requires c < |s.chans|
  {
    s.chans[c].ring + ValsBut(s, s.chans[c].senders, {})
  }

  /** The node was decided in favour of its operation. */
  predicate WonOk(x: Actor, slot: Slot) {
    match slot
    case Own => x.cstat == Ok
    case Stack(i) => x.winner == i && x.wstat == Ok
  }

  /** The nodes of w are parked senders of c, all of actor x, that wait no longer and did not complete. */
  ghost predicate Withdrawn(s: State, s': State, c: nat, x: nat, w: set<Node>)
    requires c < |s.chans|
  {
    forall n :: n in w ==>
      n in s.chans[c].senders && n.cr == x && n.cr < |s'.act| && !Undecided(s'.act[n.cr], n.slot) && !WonOk(s'.act[n.cr], n.slot)
  }

  /** Some actor has received v on channel c in this step. */
  ghost predicate Receives(s: State, s': State, c: nat, v: Val) {
    exists r, i ::
      && 0 <= r < |s.act| && r < |s'.act| && 0 <= i < |s'.act[r].ops| && s'.act[r].ops[i].ch == c && !s'.act[r].ops[i].isSend
      && s'.act[r].got == v && s'.act[r].fx == s.act[r].fx + [Fx(i, Ok)]
  }

  /** Some actor offers v on channel c in this step: the send completes, or parks. */
  ghost predicate Offers(s: State, s': State, c: nat, v: Val) {
    exists r, i ::
      && 0 <= r < |s.act| && r < |s'.act| && 0 <= i < |s'.act[r].ops| && s'.act[r].ops[i] == Case(c, true, v)
      && (s'.act[r].fx == s.act[r].fx + [Fx(i, Ok)]
          || Undecided(s'.act[r], Stack(i)) || (i == 0 && Undecided(s'.act[r], Own)))
  }

  /**
   One step of a FIFO queue: after withdrawing parked values of at most one actor,
   nothing happens, a value arrives at the end of an open channel, the head is received,
   or a value passes through the empty queue of an open channel.
   */
  ghost predicate FifoMove(s: State, s': State, c: nat, x: nat, w: set<Node>)
    requires c < |s.chans| && |s'.chans| == |s.chans|
  {
    var q := s.chans[c].ring + ValsBut(s, s.chans[c].senders, w);
    var q' := Queue(s', c);
    var h, h' := s.chans[c], s'.chans[c];
    && Withdrawn(s, s', c, x, w)
    && (|| (h'.rcvd == h.rcvd && q' == q)
        || (!h.closed && h'.rcvd == h.rcvd && |q'| > 0 && q' == q + [q'[|q'| - 1]] && Offers(s, s', c, q'[|q'| - 1]))
        || (|q| > 0 && h'.rcvd == h.rcvd + [q[0]] && q' == q[1..] && Receives(s, s', c, q[0]))
        || (!h.closed && q == [] && q' == [] && |h'.rcvd| > 0
            && h'.rcvd == h.rcvd + [h'.rcvd[|h'.rcvd| - 1]]
            && Receives(s, s', c, h'.rcvd[|h'.rcvd| - 1]) && Offers(s, s', c, h'.rcvd[|h'.rcvd| - 1])))
  }

  /** Case i of actor r. */
  datatype Fin = Fin(r: nat, i: nat)

  /** The step completes the case with Ok. */
  ghost predicate Completes(s: State, s': State, f: Fin) {
    && f.r < |s.act| && f.r < |s'.act| && f.i < |s'.act[f.r].ops|
    && s'.act[f.r].ops == s.act[f.r].ops && s'.act[f.r].fx == s.act[f.r].fx + [Fx(f.i, Ok)]
  }

  /** The same for a send, or a receive, on channel c. */
  ghost predicate On(s: State, s': State, c: nat, send: bool, f: Fin) {
    Completes(s, s', f) && s'.act[f.r].ops[f.i].ch == c && s'.act[f.r].ops[f.i].isSend == send
  }

  function IndexOf(slot: Slot): nat {
    match slot case Own => 0 case Stack(i) => i
  }

  /** The case was waiting, as a sender of c that is not withdrawn. */
  ghost predicate WasParked(s: State, c: nat, w: set<Node>, f: Fin)
    requires c < |s.chans|
  {
    exists slot :: IndexOf(slot) == f.i && LiveIn(s, s.chans[c].senders, Node(f.r, slot)) && Node(f.r, slot) !in w
  }

  /**
   Where the value of a completed send is: appended to the queue, handed to a receiver through
   the empty queue, or, if the send was parked, first among the parked values and from there
   in the ring or with a receiver.
   */
  ghost predicate Placed(s: State, s': State, c: nat, w: set<Node>, f: Fin)
    requires c < |s.chans| && |s'.chans| == |s.chans| && On(s, s', c, true, f)
  {
    var v := s'.act[f.r].ops[f.i].val;
    var h, h' := s.chans[c], s'.chans[c];
    var parked, parked' := ValsBut(s, h.senders, w), ValsBut(s', h'.senders, {});
    || (h'.rcvd == h.rcvd && h'.ring + parked' == h.ring + parked + [v])
    || (h'.rcvd == h.rcvd + [v] && h.ring == [] && parked == [] && h'.ring == [] && parked' == [])
    || (WasParked(s, c, w, f) && parked == [v] + parked'
        && ((h'.rcvd == h.rcvd && h'.ring == h.ring + [v]) || (h'.rcvd == h.rcvd + [v] && h.ring == [] && h'.ring == [])))
  }

  ghost predicate SendsPlaced(s: State, s': State, c: nat, w: set<Node>)
    requires c < |s.chans| && |s'.chans| == |s.chans|
  {
    forall f :: On(s, s', c, true, f) ==> Placed(s, s', c, w, f)
  }

  ghost predicate QueueStep(s: State, s': State, c: nat)
    requires c < |s.chans| && |s'.chans| == |s.chans|
  {
    exists x: nat, w: set<Node> :: FifoMove(s, s', c, x, w) && SendsPlaced(s, s', c, w)
  }

  // ---------------------------------------------------------------- steps that complete nothing

  ghost predicate NoOk(s: State, s': State, c: nat) {
    forall b, f :: !On(s, s', c, b, f)
  }

  predicate IsMove(st: Step) {
    st.DoHandOff? || st.DoPushRing? || st.DoPopRing? || st.DoRefill? || st.DoTakeDirect?
  }

  /** No completion with Ok happened to the actor. */
  predicate FxCalm(x: Actor, x': Actor) {
    x'.fx == x.fx || x'.fx == [] || (|x'.fx| == |x.fx| + 1 && x'.fx[|x.fx|].st == Closed)
  }

  lemma {:induction false} CalmActors(s: State, a: nat, st: Step, s': State)
    requires NextStep(s, a, st, s') && !IsMove(st)
    ensures |s'.act| == |s.act| && forall r :: 0 <= r < |s.act| ==> FxCalm(s.act[r], s'.act[r])
  {
  }

  lemma {:induction false} CalmStep(s: State, a: nat, st: Step, s': State, c: nat)
    requires NextStep(s, a, st, s') && !IsMove(st)
    ensures NoOk(s, s', c)
  {
    CalmActors(s, a, st, s');
    forall b, f
      ensures !On(s, s', c, b, f)
    {
      assert f.r < |s.act| ==> FxCalm(s.act[f.r], s'.act[f.r]);
    }
  }

  // ---------------------------------------------------------------- values of a list

  /** A node that loses its liveness is the same as a withdrawn node. */
  lemma {:induction false} ValsKept(s: State, s': State, l: seq<Node>, w: set<Node>)
    requires |s'.act| == |s.act|
    requires forall n :: n in l && n.cr < |s.act| ==>
      s'.act[n.cr].ops == s.act[n.cr].ops && Live(s', n) == (Live(s, n) && n !in w)
    ensures ValsBut(s', l, {}) == ValsBut(s, l, w)
  {
    if l != [] {
      assert l[0] in l;
      ValsKept(s, s', l[1..], w);
    }
  }

  lemma {:induction false} ValsAppend(s: State, l: seq<Node>, n: Node, w: set<Node>)
    ensures ValsBut(s, l + [n], w) == ValsBut(s, l, w) + ValsBut(s, [n], w)
  {
    if l == [] {
      assert l + [n] == [n];
    } else {
      assert (l + [n])[1..] == l[1..] + [n];
      ValsAppend(s, l[1..], n, w);
    }
  }

  lemma {:induction false} ValsNone(s: State, l: seq<Node>, w: set<Node>)
    requires forall n :: LiveIn(s, l, n) ==> n in w
    ensures ValsBut(s, l, w) == []
  {
    if l != [] {
      assert forall n :: LiveIn(s, l[1..], n) ==> LiveIn(s, l, n);
      assert l[0].cr < |s.act| && Live(s, l[0]) ==> LiveIn(s, l, l[0]);
      ValsNone(s, l[1..], w);
    }
  }

  lemma {:induction false} ValsRemove(s: State, l: seq<Node>, n: Node)
    requires NoDup(l)
    ensures ValsBut(s, Remove(l, n), {}) == ValsBut(s, l, {n})
  {
    if l != [] {
      assert l == [l[0]] + l[1..];
      TailNoDup(l[0], l[1..]);
      if l[0] == n {
        ValsAbsent(s, l[1..], n);
      } else {
        ValsRemove(s, l[1..], n);
      }
    }
  }

  lemma {:induction false} ValsAbsent(s: State, l: seq<Node>, n: Node)
    requires n !in l
    ensures ValsBut(s, l, {n}) == ValsBut(s, l, {})
  {
    if l != [] {
      assert l[0] in l;
      ValsAbsent(s, l[1..], n);
    }
  }

  // ---------------------------------------------------------------- steps that leave the queue alone

  ghost predicate SameChan(h: Chan, h': Chan) {
    h'.ring == h.ring && h'.rcvd == h.rcvd && h'.senders == h.senders
  }

  lemma {:induction false} CalmMove(s: State, s': State, c: nat, x: nat, w: set<Node>)
    requires c < |s.chans| && |s'.chans| == |s.chans| && FifoMove(s, s', c, x, w) && NoOk(s, s', c)
    ensures QueueStep(s, s', c)
  {
    assert SendsPlaced(s, s', c, w);
  }

  lemma {:induction false} Still(s: State, s': State, c: nat)
    requires c < |s.chans| && |s'.chans| == |s.chans| && |s'.act| == |s.act| && SameChan(s.chans[c], s'.chans[c]) && NoOk(s, s', c)
    requires forall n :: n in s.chans[c].senders && n.cr < |s.act| ==>
      s'.act[n.cr].ops == s.act[n.cr].ops && Live(s', n) == Live(s, n)
    ensures QueueStep(s, s', c)
  {
    ValsKept(s, s', s.chans[c].senders, {});
    CalmMove(s, s', c, 0, {});
  }

  lemma {:induction false} LocalFifo(s: State, a: nat, s': State, c: nat)
    requires ListsOk(s) && LocalOk(s, a, s') && c < |s.chans| && NoOk(s, s', c)
    ensures QueueStep(s, s', c)
  {
    Still(s, s', c);
  }

  // ---------------------------------------------------------------- arrivals, receives and withdrawals

  /** The attempt of actor a completes its case and nobody else's. */
  lemma {:induction false} SoleOk(s: State, a: nat, s': State, f: Fin)
    requires (PushRing(s, a, s') || PopRing(s, a, s')) && Completes(s, s', f)
    ensures f == Fin(a, Cur(s.act[a], s.act[a].pc.why))
  {
    var i := Cur(s.act[a], s.act[a].pc.why);
    if f.r == a {
      assert s'.act[a].fx[|s.act[a].fx|] == Fx(i, Ok);
    }
  }

  lemma {:induction false} PushFifo(s: State, a: nat, s': State, c: nat)
    requires ChansOk(s) && LocksOk(s) && PushRing(s, a, s') && c == CurCase(s, a).ch
    ensures QueueStep(s, s', c)
  {
    var h := s.chans[c];
    var i, v := Cur(s.act[a], s.act[a].pc.why), CurCase(s, a).val;
    assert Holds(s.act[a], c);
    ValsNone(s, h.senders, {});
    ValsKept(s, s', h.senders, {});
    assert Queue(s', c) == h.ring + [v] && ValsBut(s, h.senders, {}) == [];
    assert Offers(s, s', c, v) by { assert s'.act[a].ops[i] == Case(c, true, v); }
    assert FifoMove(s, s', c, 0, {});
    forall b, f | On(s, s', c, b, f)
      ensures f == Fin(a, i) && b && Placed(s, s', c, {}, f)
    {
      SoleOk(s, a, s', f);
    }
    assert SendsPlaced(s, s', c, {});
  }

  lemma {:induction false} PopFifo(s: State, a: nat, s': State, c: nat)
    requires PopRing(s, a, s') && c == CurCase(s, a).ch
    ensures QueueStep(s, s', c)
  {
    var h := s.chans[c];
    var i := Cur(s.act[a], s.act[a].pc.why);
    ValsKept(s, s', h.senders, {});
    var q := h.ring + ValsBut(s, h.senders, {});
    assert q[1..] == h.ring[1..] + ValsBut(s, h.senders, {});
    assert Receives(s, s', c, q[0]) by { assert !s'.act[a].ops[i].isSend; }
    assert FifoMove(s, s', c, 0, {});
    forall f
      ensures !On(s, s', c, true, f)
    {
      if On(s, s', c, true, f) {
        SoleOk(s, a, s', f);
      }
    }
    assert SendsPlaced(s, s', c, {});
  }

  /** A node is appended to the list of senders: its value, if live, arrives. */
  lemma {:induction false} AppendFifo(s: State, a: nat, c: nat, slot: Slot, s': State)
    requires a < |s.act| && c < |s.chans| && |s'.act| == |s.act| && |s'.chans| == |s.chans| && ListsOk(s)
    requires s' == Both(s, a, s'.act[a], c, s'.chans[c])
    requires s'.chans[c] == s.chans[c].(senders := s.chans[c].senders + [Node(a, slot)], lock := s'.chans[c].lock)
    requires !s.chans[c].closed && s'.act[a].ops == s.act[a].ops && s'.act[a].winner == s.act[a].winner
    requires PlaceOf(s'.act[a], slot) == At(c, true) && NoOk(s, s', c)
    ensures QueueStep(s, s', c)
  {
    var h, n := s.chans[c], Node(a, slot);
    ValsKept(s, s', h.senders, {});
    ValsAppend(s', h.senders, n, {});
    var i: nat := match slot case Own => 0 case Stack(k) => k;
    var v := s'.act[a].ops[i].val;
    assert InRange(s', n) && CaseOf(s', n) == Case(c, true, v);
    if Live(s', n) {
      assert ValsBut(s', [n], {}) == [v];
      assert Queue(s', c) == Queue(s, c) + [v];
      assert s'.act[a].ops[i] == Case(c, true, v) && Undecided(s'.act[a], slot);
      assert slot == Stack(i) || (slot == Own && i == 0);
      assert Offers(s, s', c, v);
    } else {
      assert ValsBut(s', [n], {}) == [];
      assert Queue(s', c) == Queue(s, c);
    }
    CalmMove(s, s', c, 0, {});
  }

  /** A node that no longer waits is removed from the list of senders: its value, if live, is withdrawn. */
  lemma {:induction false} RemoveFifo(s: State, a: nat, c: nat, n: Node, s': State)
    requires a < |s.act| && c < |s.chans| && |s'.act| == |s.act| && |s'.chans| == |s.chans| && ListsOk(s) && NoOk(s, s', c)
    requires s' == Both(s, a, s'.act[a], c, s'.chans[c])
    requires s'.chans[c] == s.chans[c].(senders := Remove(s.chans[c].senders, n), lock := s'.chans[c].lock)
    requires s'.act[a].ops == s.act[a].ops && s'.act[a].winner == s.act[a].winner
    requires n.cr < |s.act| && !Undecided(s'.act[n.cr], n.slot) && (n in s.chans[c].senders ==> !WonOk(s'.act[n.cr], n.slot))
    ensures QueueStep(s, s', c)
  {
    var h := s.chans[c];
    if n in h.senders {
      ValsRemove(s, h.senders, n);
      ValsKept(s, s', Remove(h.senders, n), {});
      CalmMove(s, s', c, n.cr, {n});
    } else {
      RemoveAt(h.senders, n, |h.senders|);
      Still(s, s', c);
    }
  }

  // ---------------------------------------------------------------- grants

  /** A grant on another channel, or of a receiver here, withdraws the other cases of the granted select. */
  lemma {:induction false} GrantElsewhereFifo(s: State, a: nat, n: Node, st: Status, v: Val, d: nat, s': State, c: nat)
    requires ListsOk(s) && GrantFrame(s, a, n, st, v, d, s') && c < |s.chans| && NoOk(s, s', c)
    requires s'.act[a].ops == s.act[a].ops && s'.act[a].winner == s.act[a].winner
    requires SameChan(s.chans[c], s'.chans[c]) && n !in s.chans[c].senders
    ensures QueueStep(s, s', c)
  {
    var w := OthersOf(s, c, n);
    GrantKept(s, a, n, st, v, d, s', c, s.chans[c].senders);
    OthersWithdrawn(s, a, n, st, v, d, s', c);
    CalmMove(s, s', c, n.cr, w);
  }

  /** The other cases of a granted select wait no longer and have not completed. */
  lemma {:induction false} OthersWithdrawn(s: State, a: nat, n: Node, st: Status, v: Val, d: nat, s': State, c: nat)
    requires ListsOk(s) && GrantFrame(s, a, n, st, v, d, s') && c < |s.chans|
    ensures Withdrawn(s, s', c, n.cr, OthersOf(s, c, n))
    ensures st == Closed && n in s.chans[c].senders ==> Withdrawn(s, s', c, n.cr, OthersOf(s, c, n) + {n})
  {
    GrantedView(s.act[n.cr], n.slot, st, a, v);
    forall m | m in OthersOf(s, c, n)
      ensures !Undecided(s'.act[m.cr], m.slot) && !WonOk(s'.act[m.cr], m.slot)
    {
      assert PlaceOf(s.act[m.cr], m.slot) == At(c, true);
    }
  }

  ghost function OthersOf(s: State, c: nat, n: Node): set<Node>
    requires c < |s.chans|
  {
    set m | m in s.chans[c].senders && m.cr == n.cr && m != n
  }

  lemma {:induction false} GrantKept(s: State, a: nat, n: Node, st: Status, v: Val, d: nat, s': State, c: nat, l: seq<Node>)
    requires ListsOk(s) && GrantFrame(s, a, n, st, v, d, s') && c < |s.chans|
    requires s'.act[a].ops == s.act[a].ops && s'.act[a].winner == s.act[a].winner
    requires n !in l && forall m :: m in l ==> m in s.chans[c].senders
    ensures ValsBut(s', l, {}) == ValsBut(s, l, OthersOf(s, c, n))
  {
    forall m | m in l && m.cr < |s.act|
      ensures s'.act[m.cr].ops == s.act[m.cr].ops && Live(s', m) == (Live(s, m) && m !in OthersOf(s, c, n))
    {
      assert PlaceOf(s.act[m.cr], m.slot) == At(c, true);
    }
    ValsKept(s, s', l, OthersOf(s, c, n));
  }

  /** What every grant step looks like to the other channels. */
  ghost predicate GrantsFor(s: State, a: nat, n: Node, st: Status, v: Val, d: nat, s': State) {
    && GrantFrame(s, a, n, st, v, d, s')
    && s'.act[a].ops == s.act[a].ops && s'.act[a].winner == s.act[a].winner
  }

  /** The head of the senders is granted: its value moves to the ring, to the receiver, or is withdrawn by close. */
  lemma {:induction false} SenderHeadFifo(s: State, a: nat, n: Node, st: Status, v: Val, c: nat, s': State)
    requires ListsOk(s) && GrantsFor(s, a, n, st, v, c, s')
    requires s.chans[c].senders == [n] + s'.chans[c].senders
    ensures var h, h' := s.chans[c], s'.chans[c];
      var w := OthersOf(s, c, n);
      && InRange(s, n) && CaseOf(s, n).isSend && CaseOf(s, n).ch == c && n in h.senders
      && Withdrawn(s, s', c, n.cr, w) && (st == Closed ==> Withdrawn(s, s', c, n.cr, w + {n}))
      && ValsBut(s, h.senders, w) == [CaseOf(s, n).val] + ValsBut(s', h'.senders, {})
      && ValsBut(s, h.senders, w + {n}) == ValsBut(s', h'.senders, {})
  {
    var l := s'.chans[c].senders;
    var w := OthersOf(s, c, n);
    assert s.chans[c].senders[0] == n && s.chans[c].senders[1..] == l;
    assert n in s.chans[c].senders;
    TailNoDup(n, l);
    assert forall m :: m in l ==> m in [n] + l;
    GrantKept(s, a, n, st, v, c, s', c, l);
    OthersWithdrawn(s, a, n, st, v, c, s', c);
    ValsUnion(s, l, w, n);
  }

  lemma {:induction false} ValsUnion(s: State, l: seq<Node>, w: set<Node>, n: Node)
    requires n !in l
    ensures ValsBut(s, l, w + {n}) == ValsBut(s, l, w)
  {
    if l != [] {
      assert l[0] in l;
      ValsUnion(s, l[1..], w, n);
    }
  }

  /** A grant with Ok completes the case of the node, and the case of the granter if that is done, too. */
  lemma {:induction false} GrantOks(s: State, a: nat, n: Node, v: Val, d: nat, s': State, f: Fin)
    requires GrantFrame(s, a, n, Ok, v, d, s') && Completes(s, s', f)
    ensures f == Fin(n.cr, IndexOf(n.slot)) || f.r == a
  {
    if f.r == n.cr {
      assert s'.act[n.cr].fx[|s.act[n.cr].fx|] == Fx(IndexOf(n.slot), Ok);
    }
  }

  /** What granter a completes itself: case i, or nothing. */
  lemma {:induction false} GranterOks(s: State, a: nat, i: nat, s': State, f: Fin)
    requires a < |s.act| && a < |s'.act| && f.r == a && Completes(s, s', f)
    requires s'.act[a].fx == s.act[a].fx || s'.act[a].fx == s.act[a].fx + [Fx(i, Ok)]
    ensures f == Fin(a, i) && s'.act[a].fx == s.act[a].fx + [Fx(i, Ok)]
  {
    assert s'.act[a].fx[|s.act[a].fx|] == Fx(f.i, Ok);
  }

  /** All completions of a grant on channel d are on d, the node's on the side of its list. */
  lemma {:induction false} GrantSides(s: State, a: nat, n: Node, v: Val, d: nat, side: bool, i: nat, s': State, c: nat, b: bool, f: Fin)
    requires GrantFrame(s, a, n, Ok, v, d, s') && PlaceOf(s.act[n.cr], n.slot) == At(d, side)
    requires s'.act[a].fx == s.act[a].fx || s'.act[a].fx == s.act[a].fx + [Fx(i, Ok)]
    requires s'.act[a].ops == s.act[a].ops && i < |s.act[a].ops| && s.act[a].ops[i].ch == d && s.act[a].ops[i].isSend != side
    requires On(s, s', c, b, f)
    ensures c == d && if b == side then f == Fin(n.cr, IndexOf(n.slot)) else f == Fin(a, i) && s'.act[a].fx != s.act[a].fx
  {
    GrantOks(s, a, n, v, d, s', f);
    if f.r == a {
      GranterOks(s, a, i, s', f);
    }
  }

  lemma {:induction false} GrantNoOk(s: State, a: nat, n: Node, v: Val, d: nat, side: bool, i: nat, s': State, c: nat)
    requires GrantFrame(s, a, n, Ok, v, d, s') && PlaceOf(s.act[n.cr], n.slot) == At(d, side) && c != d
    requires s'.act[a].fx == s.act[a].fx || s'.act[a].fx == s.act[a].fx + [Fx(i, Ok)]
    requires s'.act[a].ops == s.act[a].ops && i < |s.act[a].ops| && s.act[a].ops[i].ch == d && s.act[a].ops[i].isSend != side
    ensures NoOk(s, s', c)
  {
    forall b, f
      ensures !On(s, s', c, b, f)
    {
      if On(s, s', c, b, f) {
        GrantSides(s, a, n, v, d, side, i, s', c, b, f);
      }
    }
  }

  lemma {:induction false} HandOffFifo(s: State, a: nat, s': State, c: nat)
    requires Inv(s) && HandOff(s, a, s') && c < |s.chans|
    ensures QueueStep(s, s', c)
  {
    var op := CurCase(s, a);
    var h := s.chans[op.ch];
    var n := h.receivers[0];
    assert LiveIn(s, List(h, false), n);
    HeadUndecided(s, op.ch, false, n);
    assert GrantsFor(s, a, n, Ok, op.val, op.ch, s');
    if c != op.ch {
      SenderElsewhere(s, op.ch, false, n, c);
      GrantNoOk(s, a, n, op.val, op.ch, false, Cur(s.act[a], s.act[a].pc.why), s', c);
      GrantElsewhereFifo(s, a, n, Ok, op.val, op.ch, s', c);
    } else {
      HandOffHere(s, a, s');
    }
  }

  /** A node placed on one list is on no other. */
  lemma {:induction false} SenderElsewhere(s: State, d: nat, side: bool, n: Node, c: nat)
    requires ListsOk(s) && c < |s.chans| && n.cr < |s.act| && PlaceOf(s.act[n.cr], n.slot) == At(d, side)
    requires c != d || !side
    ensures n !in s.chans[c].senders
  {
  }

  /** A hand-off happens on an empty queue and leaves it empty. */
  lemma {:induction false} HandOffEmpty(s: State, a: nat, s': State, c: nat, n: Node)
    requires ListsOk(s) && ChansOk(s) && HandOff(s, a, s') && c == CurCase(s, a).ch && n == s.chans[c].receivers[0]
    requires PlaceOf(s.act[n.cr], n.slot) == At(c, false) && GrantsFor(s, a, n, Ok, CurCase(s, a).val, c, s')
    ensures s.chans[c].ring == [] && ValsBut(s, s.chans[c].senders, OthersOf(s, c, n)) == [] && Queue(s', c) == []
  {
    var h := s.chans[c];
    var w := OthersOf(s, c, n);
    SenderElsewhere(s, c, false, n, c);
    GrantKept(s, a, n, Ok, CurCase(s, a).val, c, s', c, h.senders);
    assert LiveIn(s, h.receivers, n) && ChanOk(s, h);
    assert forall m :: LiveIn(s, h.senders, m) ==> m in w;
    ValsNone(s, h.senders, w);
  }

  lemma {:induction false} HandOffHere(s: State, a: nat, s': State)
    requires ListsOk(s) && ChansOk(s) && HandOff(s, a, s')
    requires var n := s.chans[CurCase(s, a).ch].receivers[0];
      PlaceOf(s.act[n.cr], n.slot) == At(CurCase(s, a).ch, false) && GrantsFor(s, a, n, Ok, CurCase(s, a).val, CurCase(s, a).ch, s')
    ensures QueueStep(s, s', CurCase(s, a).ch)
  {
    var op := CurCase(s, a);
    var c := op.ch;
    var n := s.chans[c].receivers[0];
    var w := OthersOf(s, c, n);
    HandOffEmpty(s, a, s', c, n);
    OthersWithdrawn(s, a, n, Ok, op.val, c, s', c);
    HandOffBoth(s, a, s');
    assert FifoMove(s, s', c, n.cr, w);
    HandOffOks(s, a, s', c, n, w);
  }

  lemma {:induction false} HandOffOks(s: State, a: nat, s': State, c: nat, n: Node, w: set<Node>)
    requires HandOff(s, a, s') && c == CurCase(s, a).ch && n == s.chans[c].receivers[0]
    requires PlaceOf(s.act[n.cr], n.slot) == At(c, false) && GrantsFor(s, a, n, Ok, CurCase(s, a).val, c, s')
    requires s.chans[c].ring == [] && ValsBut(s, s.chans[c].senders, w) == [] && Queue(s', c) == []
    ensures SendsPlaced(s, s', c, w)
  {
    var i := Cur(s.act[a], s.act[a].pc.why);
    forall b, f | On(s, s', c, b, f)
      ensures f == if b then Fin(a, i) else Fin(n.cr, IndexOf(n.slot))
      ensures b ==> Placed(s, s', c, w, f)
    {
      GrantSides(s, a, n, CurCase(s, a).val, c, false, i, s', c, b, f);
    }
  }

  lemma {:induction false} HandOffBoth(s: State, a: nat, s': State)
    requires HandOff(s, a, s')
    requires var n := s.chans[CurCase(s, a).ch].receivers[0];
      n.cr != a && PlaceOf(s.act[n.cr], n.slot) == At(CurCase(s, a).ch, false)
    ensures Offers(s, s', CurCase(s, a).ch, CurCase(s, a).val) && Receives(s, s', CurCase(s, a).ch, CurCase(s, a).val)
  {
    var op := CurCase(s, a);
    var i := Cur(s.act[a], s.act[a].pc.why);
    assert s'.act[a].ops[i] == op;
    var n := s.chans[op.ch].receivers[0];
    var k: nat := match n.slot case Own => 0 case Stack(k) => k;
    assert !s'.act[n.cr].ops[k].isSend;
  }

  lemma {:induction false} RefillFifo(s: State, a: nat, s': State, c: nat)
    requires Inv(s) && Refill(s, a, s') && c < |s.chans|
    ensures QueueStep(s, s', c)
  {
    var d := CurCase(s, a).ch;
    var h := s.chans[d];
    var n := h.senders[0];
    var g := s.act[n.cr].got;
    assert LiveIn(s, List(h, true), n);
    HeadUndecided(s, d, true, n);
    assert GrantsFor(s, a, n, Ok, g, d, s');
    if c != d {
      SenderElsewhere(s, d, true, n, c);
      GrantNoOk(s, a, n, g, d, true, Cur(s.act[a], s.act[a].pc.why), s', c);
      GrantElsewhereFifo(s, a, n, Ok, g, d, s', c);
    } else {
      RefillHere(s, a, s');
    }
  }

  lemma {:induction false} RefillHere(s: State, a: nat, s': State)
    requires ListsOk(s) && Refill(s, a, s') && !CurCase(s, a).isSend
    requires var n := s.chans[CurCase(s, a).ch].senders[0]; GrantsFor(s, a, n, Ok, s.act[n.cr].got, CurCase(s, a).ch, s')
    ensures QueueStep(s, s', CurCase(s, a).ch)
  {
    var d := CurCase(s, a).ch;
    var h := s.chans[d];
    var n := h.senders[0];
    var w := OthersOf(s, d, n);
    assert h.senders == [n] + s'.chans[d].senders;
    SenderHeadFifo(s, a, n, Ok, s.act[n.cr].got, d, s');
    var v := CaseOf(s, n).val;
    var rest := ValsBut(s', s'.chans[d].senders, {});
    assert h.ring + ([v] + rest) == (h.ring + [v]) + rest;
    assert FifoMove(s, s', d, n.cr, w);
    TakenOks(s, a, s', d, n, w);
  }

  /** A refill or a direct take completes the send of the first parked node; the receive, if it completes now, gets its value. */
  lemma {:induction false} TakenOks(s: State, a: nat, s': State, c: nat, n: Node, w: set<Node>)
    requires (Refill(s, a, s') || TakeDirect(s, a, s')) && c == CurCase(s, a).ch && !CurCase(s, a).isSend && n == s.chans[c].senders[0]
    requires PlaceOf(s.act[n.cr], n.slot) == At(c, true) && GrantsFor(s, a, n, Ok, s.act[n.cr].got, c, s') && n !in w
    requires ValsBut(s, s.chans[c].senders, w) == [CaseOf(s, n).val] + ValsBut(s', s'.chans[c].senders, {})
    ensures SendsPlaced(s, s', c, w)
  {
    var i := Cur(s.act[a], s.act[a].pc.why);
    forall b, f | On(s, s', c, b, f)
      ensures f == if b then Fin(n.cr, IndexOf(n.slot)) else Fin(a, i)
      ensures b ==> Placed(s, s', c, w, f)
    {
      GrantSides(s, a, n, s.act[n.cr].got, c, true, i, s', c, b, f);
      if b {
        assert LiveIn(s, s.chans[c].senders, n) && IndexOf(n.slot) == f.i && n == Node(f.r, n.slot);
        assert WasParked(s, c, w, f);
      }
    }
  }

  lemma {:induction false} TakeDirectFifo(s: State, a: nat, s': State, c: nat)
    requires Inv(s) && TakeDirect(s, a, s') && c < |s.chans|
    ensures QueueStep(s, s', c)
  {
    var d := CurCase(s, a).ch;
    var h := s.chans[d];
    var n := h.senders[0];
    var g := s.act[n.cr].got;
    assert LiveIn(s, List(h, true), n);
    HeadUndecided(s, d, true, n);
    assert GrantsFor(s, a, n, Ok, g, d, s');
    if c != d {
      SenderElsewhere(s, d, true, n, c);
      GrantNoOk(s, a, n, g, d, true, Cur(s.act[a], s.act[a].pc.why), s', c);
      GrantElsewhereFifo(s, a, n, Ok, g, d, s', c);
    } else {
      assert h.senders == [n] + s'.chans[d].senders;
      SenderHeadFifo(s, a, n, Ok, g, d, s');
      var i := Cur(s.act[a], s.act[a].pc.why);
      assert Receives(s, s', c, CaseOf(s, n).val) by { assert !s'.act[a].ops[i].isSend; }
      assert FifoMove(s, s', c, n.cr, OthersOf(s, d, n));
      TakenOks(s, a, s', c, n, OthersOf(s, d, n));
    }
  }

  /** Popping a node that is no longer live changes no queue. */
  lemma {:induction false} DeadHeadFifo(s: State, d: nat, side: bool, s': State, c: nat)
    requires d < |s.chans| && c < |s.chans| && List(s.chans[d], side) != []
    requires var n := List(s.chans[d], side)[0]; n.cr < |s.act| && !Live(s, n)
    requires s' == SetChan(s, d, WithList(s.chans[d], side, List(s.chans[d], side)[1..])) && NoOk(s, s', c)
    ensures QueueStep(s, s', c)
  {
    var l := List(s.chans[d], side);
    if c == d && side {
      ValsKept(s, s', l[1..], {});
      assert ValsBut(s, l, {}) == ValsBut(s, l[1..], {});
      CalmMove(s, s', c, 0, {});
    } else {
      Still(s, s', c);
    }
  }

  lemma {:induction false} CloseGrantFifo(s: State, a: nat, s': State, c: nat)
    requires ActorsOk(s) && ListsOk(s) && CloseTake(s, a, s') && c < |s.chans| && NoOk(s, s', c)
    requires var h := s.chans[s.act[a].pc.c]; Live(s, List(h, h.senders != [])[0])
    ensures QueueStep(s, s', c)
  {
    var d := s.act[a].pc.c;
    var h := s.chans[d];
    var side := h.senders != [];
    var n := List(h, side)[0];
    assert LiveIn(s, List(h, side), n);
    HeadUndecided(s, d, side, n);
    assert GrantsFor(s, a, n, Closed, s.act[n.cr].got, d, s');
    if c == d && side {
      assert h.senders == [n] + h.senders[1..];
      SenderHeadFifo(s, a, n, Closed, s.act[n.cr].got, d, s');
      CalmMove(s, s', c, n.cr, OthersOf(s, d, n) + {n});
    } else {
      SenderElsewhere(s, d, side, n, c);
      GrantElsewhereFifo(s, a, n, Closed, s.act[n.cr].got, d, s', c);
    }
  }

  lemma {:induction false} CloseTakeFifo(s: State, a: nat, s': State, c: nat)
    requires ActorsOk(s) && ListsOk(s) && CloseTake(s, a, s') && c < |s.chans| && NoOk(s, s', c)
    ensures QueueStep(s, s', c)
  {
    var h := s.chans[s.act[a].pc.c];
    if Live(s, List(h, h.senders != [])[0]) {
      CloseGrantFifo(s, a, s', c);
    } else {
      DeadHeadFifo(s, s.act[a].pc.c, h.senders != [], s', c);
    }
  }

  lemma {:induction false} ReleaseFifo(s: State, a: nat, s': State, c: nat)
    requires c < |s.chans| && NoOk(s, s', c)
    requires WakeEnd(s, a, s') || EndOne(s, a, s') || CloseAcquire(s, a, s') || CloseRelease(s, a, s')
    ensures QueueStep(s, s', c)
  {
    Still(s, s', c);
  }

  lemma {:induction false} CloseFifo(s: State, a: nat, st: Step, s': State, c: nat)
    requires Inv(s) && NextStep(s, a, st, s') && IsClose(st) && c < |s.chans|
    ensures QueueStep(s, s', c)
  {
    CalmStep(s, a, st, s', c);
    if st.DoCloseTake? {
      CloseTakeFifo(s, a, s', c);
    } else {
      ReleaseFifo(s, a, s', c);
    }
  }

  lemma {:induction false} ParkFifo(s: State, a: nat, s': State, c: nat)
    requires ListsOk(s) && ActorsOk(s) && Park(s, a, s') && c < |s.chans| && NoOk(s, s', c)
    ensures QueueStep(s, s', c)
  {
    var op := CurCase(s, a);
    if c == op.ch && op.isSend {
      AppendFifo(s, a, c, Own, s');
    } else {
      Still(s, s', c);
    }
  }

  lemma {:induction false} CancelFifo(s: State, a: nat, k: Status, s': State, c: nat)
    requires ListsOk(s) && CancelWait(s, a, k, s') && c < |s.chans| && NoOk(s, s', c)
    ensures QueueStep(s, s', c)
  {
    var op := s.act[a].ops[0];
    if c == op.ch && op.isSend {
      RemoveFifo(s, a, c, Node(a, Own), s');
    } else {
      Still(s, s', c);
    }
  }

  lemma {:induction false} RegisterFifo(s: State, a: nat, s': State, c: nat)
    requires ListsOk(s) && ActorsOk(s) && Register(s, a, s') && c < |s.chans| && NoOk(s, s', c)
    ensures QueueStep(s, s', c)
  {
    var i := s.act[a].pc.i;
    var op := s.act[a].ops[i];
    if !CaseReady(s.chans[op.ch], op.isSend, a) && c == op.ch && op.isSend {
      AppendFifo(s, a, c, Stack(i), s');
    } else {
      Still(s, s', c);
    }
  }

  lemma {:induction false} UnregisterFifo(s: State, a: nat, s': State, c: nat)
    requires ListsOk(s) && Unregister(s, a, s') && c < |s.chans| && NoOk(s, s', c)
    ensures QueueStep(s, s', c)
  {
    var j := s.act[a].pc.j;
    var op := s.act[a].ops[j];
    if c == op.ch && op.isSend {
      RemoveFifo(s, a, c, Node(a, Stack(j)), s');
    } else {
      Still(s, s', c);
    }
  }

  lemma {:induction false} ListFifo(s: State, a: nat, st: Step, s': State, c: nat)
    requires Inv(s) && NextStep(s, a, st, s') && c < |s.chans|
    requires !IsLocal(st) && !IsAttempt(st) && !IsClose(st) && !IsGrant(st)
    ensures QueueStep(s, s', c)
  {
    CalmStep(s, a, st, s', c);
    match st {
      case DoDiscard => DeadHeadFifo(s, CurCase(s, a).ch, !CurCase(s, a).isSend, s', c);
      case DoPark => ParkFifo(s, a, s', c);
      case DoCancelWait(k) => CancelFifo(s, a, k, s', c);
      case DoRegister => RegisterFifo(s, a, s', c);
      case DoUnregister => UnregisterFifo(s, a, s', c);
      case _ =>
    }
  }

  lemma {:induction false} GrantFifo(s: State, a: nat, st: Step, s': State, c: nat)
    requires Inv(s) && NextStep(s, a, st, s') && IsGrant(st) && c < |s.chans|
    ensures QueueStep(s, s', c)
  {
    match st {
      case DoHandOff => HandOffFifo(s, a, s', c);
      case DoRefill => RefillFifo(s, a, s', c);
      case DoTakeDirect => TakeDirectFifo(s, a, s', c);
      case _ =>
    }
  }

  lemma {:induction false} AttemptNoOk(s: State, a: nat, st: Step, s': State, c: nat)
    requires NextStep(s, a, st, s') && IsAttempt(st) && ((st.DoPushRing? || st.DoPopRing?) ==> c != CurCase(s, a).ch)
    ensures NoOk(s, s', c)
  {
    if IsMove(st) {
      forall b, f
        ensures !On(s, s', c, b, f)
      {
        if On(s, s', c, b, f) {
          SoleOk(s, a, s', f);
        }
      }
    } else {
      CalmStep(s, a, st, s', c);
    }
  }

  lemma {:induction false} AttemptFifo(s: State, a: nat, st: Step, s': State, c: nat)
    requires Inv(s) && NextStep(s, a, st, s') && IsAttempt(st) && c < |s.chans|
    ensures QueueStep(s, s', c)
  {
    if st.DoPushRing? && c == CurCase(s, a).ch {
      PushFifo(s, a, s', c);
    } else if st.DoPopRing? && c == CurCase(s, a).ch {
      PopFifo(s, a, s', c);
    } else {
      AttemptNoOk(s, a, st, s', c);
      Still(s, s', c);
    }
  }

  lemma {:induction false} LocalIsFifo(s: State, a: nat, st: Step, s': State, c: nat)
    requires Inv(s) && NextStep(s, a, st, s') && c < |s.chans| && IsLocal(st)
    ensures |s'.chans| == |s.chans| && QueueStep(s, s', c)
  {
    LocalNext(s, a, st, s');
    CalmStep(s, a, st, s', c);
    LocalFifo(s, a, s', c);
  }

  lemma {:induction false} OtherIsFifo(s: State, a: nat, st: Step, s': State, c: nat)
    requires Inv(s) && NextStep(s, a, st, s') && c < |s.chans| && !IsLocal(st) && !IsAttempt(st)
    ensures |s'.chans| == |s.chans| && QueueStep(s, s', c)
  {
    if IsClose(st) {
      CloseFifo(s, a, st, s', c);
    } else if IsGrant(st) {
      GrantFifo(s, a, st, s', c);
    } else {
      ListFifo(s, a, st, s', c);
    }
  }

  // ---------------------------------------------------------------- the ledger of a channel

  /** What a completed case moved: the value sent, or the value received. */
  function Moved(s: State, f: Fin): Val
    requires f.r < |s.act| && f.i < |s.act[f.r].ops|
  {
    if s.act[f.r].ops[f.i].isSend then s.act[f.r].ops[f.i].val else s.act[f.r].got
  }

  /** Everything that ever got past parking: the values received, then those in the ring. */
  function Passed(h: Chan): seq<Val> {
    h.rcvd + h.ring
  }

  /** A value gets past parking exactly by a completed send, and is received exactly by a completed receive. */
  ghost predicate Ledger(s: State, s': State, c: nat)
    requires c < |s.chans| && |s'.chans| == |s.chans|
  {
    && (forall f :: On(s, s', c, true, f) ==> Passed(s'.chans[c]) == Passed(s.chans[c]) + [Moved(s', f)])
    && ((forall f :: !On(s, s', c, true, f)) ==> Passed(s'.chans[c]) == Passed(s.chans[c]))
    && (forall f :: On(s, s', c, false, f) ==> s'.chans[c].rcvd == s.chans[c].rcvd + [Moved(s', f)])
    && ((forall f :: !On(s, s', c, false, f)) ==> s'.chans[c].rcvd == s.chans[c].rcvd)
    && (forall b, f, g :: On(s, s', c, b, f) && On(s, s', c, b, g) ==> f == g)
  }

  lemma {:induction false} CalmChans(s: State, a: nat, st: Step, s': State, c: nat)
    requires NextStep(s, a, st, s') && !IsMove(st) && c < |s.chans|
    ensures |s'.chans| == |s.chans| && s'.chans[c].ring == s.chans[c].ring && s'.chans[c].rcvd == s.chans[c].rcvd
  {
  }

  lemma {:induction false} PushLedger(s: State, a: nat, s': State, c: nat)
    requires PushRing(s, a, s') && c == CurCase(s, a).ch
    ensures Ledger(s, s', c)
  {
    var i := Cur(s.act[a], s.act[a].pc.why);
    forall b, f | On(s, s', c, b, f)
      ensures b && f == Fin(a, i)
    {
      SoleOk(s, a, s', f);
    }
    assert On(s, s', c, true, Fin(a, i));
    assert Passed(s'.chans[c]) == Passed(s.chans[c]) + [CurCase(s, a).val];
  }

  lemma {:induction false} PopLedger(s: State, a: nat, s': State, c: nat)
    requires PopRing(s, a, s') && c == CurCase(s, a).ch
    ensures Ledger(s, s', c)
  {
    var i := Cur(s.act[a], s.act[a].pc.why);
    forall b, f | On(s, s', c, b, f)
      ensures !b && f == Fin(a, i)
    {
      SoleOk(s, a, s', f);
    }
    assert On(s, s', c, false, Fin(a, i));
    assert Passed(s'.chans[c]) == Passed(s.chans[c]);
  }

  /** The three grants: node n of the list on side `side`, and the granter's own case i. */
  lemma {:induction false} GrantLedger(s: State, a: nat, n: Node, v: Val, c: nat, side: bool, i: nat, s': State)
    requires GrantFrame(s, a, n, Ok, v, c, s') && PlaceOf(s.act[n.cr], n.slot) == At(c, side)
    requires s'.act[a].fx == s.act[a].fx || s'.act[a].fx == s.act[a].fx + [Fx(i, Ok)]
    requires s'.act[a].ops == s.act[a].ops && i < |s.act[a].ops| && s.act[a].ops[i].ch == c && s.act[a].ops[i].isSend != side
    requires var own, other := Moved(s', Fin(n.cr, IndexOf(n.slot))), Moved(s', Fin(a, i));
      var h, h' := s.chans[c], s'.chans[c];
      if s'.act[a].fx == s.act[a].fx then side && h'.rcvd == h.rcvd && h'.ring == h.ring + [own]
      else own == other && h'.rcvd == h.rcvd + [own] && h.ring == [] && h'.ring == []
    ensures Ledger(s, s', c)
  {
    forall b, f | On(s, s', c, b, f)
      ensures f == (if b == side then Fin(n.cr, IndexOf(n.slot)) else Fin(a, i)) && (b != side ==> s'.act[a].fx != s.act[a].fx)
    {
      GrantSides(s, a, n, v, c, side, i, s', c, b, f);
    }
    assert On(s, s', c, side, Fin(n.cr, IndexOf(n.slot)));
    if s'.act[a].fx != s.act[a].fx {
      assert On(s, s', c, !side, Fin(a, i));
    } else {
      assert Passed(s'.chans[c]) == Passed(s.chans[c]) + [Moved(s', Fin(n.cr, IndexOf(n.slot)))];
    }
  }

  lemma {:induction false} QuietLedger(s: State, s': State, c: nat)
    requires c < |s.chans| && |s'.chans| == |s.chans| && NoOk(s, s', c)
    requires s'.chans[c].ring == s.chans[c].ring && s'.chans[c].rcvd == s.chans[c].rcvd
    ensures Ledger(s, s', c)
  {
  }

  lemma {:induction false} HandOffLedger(s: State, a: nat, s': State, c: nat)
    requires ActorsOk(s) && ListsOk(s) && LocksOk(s) && ChansOk(s) && HandOff(s, a, s') && c < |s.chans|
    ensures |s'.chans| == |s.chans| && Ledger(s, s', c)
  {
    var op := CurCase(s, a);
    var h := s.chans[op.ch];
    var n := h.receivers[0];
    var i := Cur(s.act[a], s.act[a].pc.why);
    assert LiveIn(s, List(h, false), n);
    HeadUndecided(s, op.ch, false, n);
    assert GrantFrame(s, a, n, Ok, op.val, op.ch, s');
    if c == op.ch {
      assert ChanOk(s, h);
      GrantLedger(s, a, n, op.val, c, false, i, s');
    } else {
      GrantNoOk(s, a, n, op.val, op.ch, false, i, s', c);
      QuietLedger(s, s', c);
    }
  }

  lemma {:induction false} TakenLedger(s: State, a: nat, s': State, c: nat)
    requires ActorsOk(s) && ListsOk(s) && (Refill(s, a, s') || TakeDirect(s, a, s')) && c < |s.chans|
    ensures |s'.chans| == |s.chans| && Ledger(s, s', c)
  {
    var d := CurCase(s, a).ch;
    var h := s.chans[d];
    var n := h.senders[0];
    var i := Cur(s.act[a], s.act[a].pc.why);
    var g := s.act[n.cr].got;
    assert LiveIn(s, List(h, true), n);
    HeadUndecided(s, d, true, n);
    assert GrantFrame(s, a, n, Ok, g, d, s');
    if c == d {
      GrantLedger(s, a, n, g, c, true, i, s');
    } else {
      GrantNoOk(s, a, n, g, d, true, i, s', c);
      QuietLedger(s, s', c);
    }
  }

  /** Every step keeps the ledger of every channel. */
  lemma {:induction false} NextLedger(s: State, a: nat, st: Step, s': State, c: nat)
    requires Inv(s) && NextStep(s, a, st, s') && c < |s.chans|
    ensures |s'.chans| == |s.chans| && Ledger(s, s', c)
  {
    if !IsMove(st) {
      CalmStep(s, a, st, s', c);
      CalmChans(s, a, st, s', c);
      QuietLedger(s, s', c);
    } else if st.DoHandOff? {
      HandOffLedger(s, a, s', c);
    } else if st.DoRefill? || st.DoTakeDirect? {
      TakenLedger(s, a, s', c);
    } else if c != CurCase(s, a).ch {
      AttemptNoOk(s, a, st, s', c);
      QuietLedger(s, s', c);
    } else if st.DoPushRing? {
      PushLedger(s, a, s', c);
    } else {
      PopLedger(s, a, s', c);
    }
  }

  // ---------------------------------------------------------------- every step

  /** A step of the FIFO queue in which exactly the completed operations move values. */
  ghost predicate FifoStep(s: State, s': State, c: nat)
    requires c < |s.chans| && |s'.chans| == |s.chans|
  {
    QueueStep(s, s', c) && Ledger(s, s', c)
  }

  /** Every step, on every channel, is a step of one FIFO queue. */
  lemma {:induction false} NextIsFifo(s: State, a: nat, st: Step, s': State, c: nat)
    requires Inv(s) && NextStep(s, a, st, s') && c < |s.chans|
    ensures |s'.chans| == |s.chans| && FifoStep(s, s', c)
  {
    NextLedger(s, a, st, s', c);
    NextQueue(s, a, st, s', c);
  }

  lemma {:induction false} NextQueue(s: State, a: nat, st: Step, s': State, c: nat)
    requires Inv(s) && NextStep(s, a, st, s') && c < |s.chans|
    ensures |s'.chans| == |s.chans| && QueueStep(s, s', c)
  {
    if IsLocal(st) {
      LocalIsFifo(s, a, st, s', c);
    } else if IsAttempt(st) {
      AttemptFifo(s, a, st, s', c);
    } else {
      OtherIsFifo(s, a, st, s', c);
    }
  }
}
