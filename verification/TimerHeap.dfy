/** The order argument of the timer heap, on sequences: sift up, sift down, and both after a removal. */
module HeapOrder {
  const NS_PER_MS: nat := 1_000_000

  datatype Timer = Timer(id: nat, deadline: nat, repeat: bool, periodMs: nat)

  function Parent(i: nat): (p: nat)
    requires i > 0
    ensures p < i
  {
    (i - 1) / 2
  }

  /** Entry i is not due before its parent. */
  ghost predicate InOrder(s: seq<Timer>, i: nat)
    requires 0 < i < |s|
  {
    s[Parent(i)].deadline <= s[i].deadline
  }

  ghost predicate Heap(s: seq<Timer>) {
    forall i: nat :: 0 < i < |s| ==> InOrder(s, i)
  }

  /** The children of entry i are not due before the parent of i. */
  ghost predicate Bridged(s: seq<Timer>, i: nat) {
    forall k: nat :: 0 < k < |s| && Parent(k) == i && 0 < i ==> s[Parent(i)].deadline <= s[k].deadline
  }

  /** A heap but for entry i, which may be due before its parent. */
  ghost predicate HeapButUp(s: seq<Timer>, i: nat) {
    i < |s| && Bridged(s, i) && forall k: nat :: 0 < k < |s| && k != i ==> InOrder(s, k)
  }

  /** A heap but for entry i, which may be anything. */
  ghost predicate HeapBut(s: seq<Timer>, i: nat) {
    i < |s| && Bridged(s, i) && forall k: nat :: 0 < k < |s| && k != i && Parent(k) != i ==> InOrder(s, k)
  }

  function Swap(s: seq<Timer>, i: nat, j: nat): (r: seq<Timer>)
    requires i < |s| && j < |s|
    ensures |r| == |s|
    ensures multiset(r) == multiset(s)
    ensures forall k: nat :: k < |s| ==> r[k] == if k == i then s[j] else if k == j then s[i] else s[k]
  {
    s[i := s[j]][j := s[i]]
  }

  function SiftUp(s: seq<Timer>, i: nat): (r: seq<Timer>)
    requires i < |s|
    ensures |r| == |s| && multiset(r) == multiset(s)
    decreases i
  {
    if i == 0 || s[Parent(i)].deadline <= s[i].deadline then s
    else SiftUp(Swap(s, Parent(i), i), Parent(i))
  }

  /** The entry among i and its children that is due first; ties go to i, then to the left. */
  function Smallest(s: seq<Timer>, i: nat): (m: nat)
    requires i < |s|
    ensures m < |s| && (m == i || (m > i && Parent(m) == i && s[m].deadline < s[i].deadline))
    ensures forall k: nat :: 0 < k < |s| && Parent(k) == i ==> s[m].deadline <= s[k].deadline
  {
    var l, r := 2 * i + 1, 2 * i + 2;
    var m := if l < |s| && s[l].deadline < s[i].deadline then l else i;
    if r < |s| && s[r].deadline < s[m].deadline then r else m
  }

  function SiftDown(s: seq<Timer>, i: nat): (r: seq<Timer>)
    requires i < |s|
    ensures |r| == |s| && multiset(r) == multiset(s)
    decreases |s| - i
  {
    var m := Smallest(s, i);
    if m == i then s else SiftDown(Swap(s, i, m), m)
  }

  lemma {:induction false} SiftUpHeap(s: seq<Timer>, i: nat)
    requires HeapButUp(s, i)
    ensures Heap(SiftUp(s, i))
    decreases i
  {
    if i > 0 {
      if InOrder(s, i) {
        assert forall k: nat :: 0 < k < |s| ==> InOrder(s, k);
      } else {
        SwapUp(s, i);
        SiftUpHeap(Swap(s, Parent(i), i), Parent(i));
      }
    }
  }

  lemma {:induction false} SwapUp(s: seq<Timer>, i: nat)
    requires HeapButUp(s, i) && i > 0 && !InOrder(s, i)
    ensures HeapButUp(Swap(s, Parent(i), i), Parent(i))
  {
    var p := Parent(i);
    var r := Swap(s, p, i);
    forall k: nat | 0 < k < |r| && k != p
      ensures InOrder(r, k)
    {
      assert k != i ==> InOrder(s, k);
    }
    forall k: nat | 0 < k < |r| && Parent(k) == p && 0 < p
      ensures r[Parent(p)].deadline <= r[k].deadline
    {
      assert InOrder(s, p);
      assert k != i ==> InOrder(s, k);
    }
  }

  lemma {:induction false} SwapDown(s: seq<Timer>, i: nat, m: nat)
    requires HeapBut(s, i) && m == Smallest(s, i) && m != i
    ensures HeapBut(Swap(s, i, m), m) && InOrder(Swap(s, i, m), m)
  {
    var r := Swap(s, i, m);
    forall k: nat | 0 < k < |r| && k != m && Parent(k) != m
      ensures InOrder(r, k)
    {
      assert k != i && Parent(k) != i ==> InOrder(s, k);
    }
    forall k: nat | 0 < k < |r| && Parent(k) == m
      ensures r[Parent(m)].deadline <= r[k].deadline
    {
      assert InOrder(s, k);
    }
  }

  /** An entry that is in order with its parent sinks to its place. */
  lemma {:induction false} SiftDownHeap(s: seq<Timer>, i: nat)
    requires HeapBut(s, i) && (i > 0 ==> InOrder(s, i))
    ensures Heap(SiftDown(s, i))
    decreases |s| - i
  {
    var m := Smallest(s, i);
    if m == i {
      forall k: nat | 0 < k < |s|
        ensures InOrder(s, k)
      {
      }
    } else {
      SwapDown(s, i, m);
      SiftDownHeap(Swap(s, i, m), m);
    }
  }

  /** Sift down, then up, at any place: what removal from the middle relies on. */
  lemma {:induction false} SiftBoth(s: seq<Timer>, i: nat)
    requires HeapBut(s, i)
    ensures Heap(SiftUp(SiftDown(s, i), i))
  {
    var m := Smallest(s, i);
    if m == i {
      forall k: nat | 0 < k < |s| && k != i
        ensures InOrder(s, k)
      {
      }
    } else {
      SwapDown(s, i, m);
      SiftDownHeap(Swap(s, i, m), m);
      var d := SiftDown(s, i);
      forall k: nat | 0 < k < |d| && Parent(k) == i && 0 < i
        ensures d[Parent(i)].deadline <= d[k].deadline
      {
        assert InOrder(d, k) && InOrder(d, i);
      }
    }
    SiftUpHeap(SiftDown(s, i), i);
  }

  lemma {:induction false} RootIsMin(s: seq<Timer>, k: nat)
    requires Heap(s) && k < |s|
    ensures s[0].deadline <= s[k].deadline
  {
    if k > 0 {
      assert InOrder(s, k);
      RootIsMin(s, Parent(k));
    }
  }

  /** A new last entry. */
  lemma {:induction false} AppendHeap(s: seq<Timer>, t: Timer)
    requires Heap(s)
    ensures HeapButUp(s + [t], |s|)
  {
    var r := s + [t];
    forall k: nat | 0 < k < |r| && k != |s|
      ensures InOrder(r, k)
    {
      assert InOrder(s, k);
    }
  }

  /** The heap without entry i, whose place the last entry takes. */
  function Dropped(s: seq<Timer>, i: nat): (r: seq<Timer>)
    requires i < |s|
    ensures |r| == |s| - 1
  {
    if i == |s| - 1 then s[..i] else s[..|s| - 1][i := s[|s| - 1]]
  }

  lemma {:induction false} DroppedHeap(s: seq<Timer>, i: nat)
    requires Heap(s) && i < |s|
    ensures multiset(Dropped(s, i)) == multiset(s) - multiset{s[i]}
    ensures if i < |s| - 1 then HeapBut(Dropped(s, i), i) else Heap(Dropped(s, i))
  {
    var n, r := |s| - 1, Dropped(s, i);
    assert s == s[..n] + [s[n]];
    forall k: nat | 0 < k < |r| && k != i && Parent(k) != i
      ensures InOrder(r, k)
    {
      assert InOrder(s, k);
    }
    forall k: nat | 0 < k < |r| && Parent(k) == i && 0 < i
      ensures r[Parent(i)].deadline <= r[k].deadline
    {
      assert InOrder(s, k) && InOrder(s, i);
    }
  }
}

/** The timers of one worker: an array heap, armed and disarmed by id, and the firing pass. */
module Timers {
  import opened HeapOrder

  datatype Popped = Nothing | Due(t: Timer)

  /** What a callback does to the timers. */
  datatype Action = Arm(t: Timer) | Disarm(id: nat)

  ghost predicate ArmsLater(actions: seq<Action>, now: nat) {
    forall k: nat :: k < |actions| && actions[k].Arm? ==> actions[k].t.deadline > now
  }

  ghost function IdsOf(m: multiset<Timer>): set<nat> {
    set t | t in m :: t.id
  }

  /** Every timer is in the heap once at most. */
  ghost predicate Once(m: multiset<Timer>) {
    && (forall a :: a in m ==> m[a] == 1)
    && forall a, b :: a in m && b in m && a.id == b.id ==> a == b
  }

  ghost function Expired(m: multiset<Timer>, now: nat): set<Timer> {
    set t | t in m && t.deadline <= now
  }

  lemma {:induction false} AddOnce(m: multiset<Timer>, t: Timer, now: nat)
    requires Once(m) && t.id !in IdsOf(m)
    ensures Once(m + multiset{t}) && IdsOf(m + multiset{t}) == IdsOf(m) + {t.id}
    ensures Expired(m + multiset{t}, now) == if t.deadline <= now then Expired(m, now) + {t} else Expired(m, now)
  {
    assert t !in m;
  }

  lemma {:induction false} RemoveOnce(m: multiset<Timer>, t: Timer, now: nat)
    requires Once(m) && t in m
    ensures Once(m - multiset{t}) && IdsOf(m - multiset{t}) == IdsOf(m) - {t.id}
    ensures Expired(m - multiset{t}, now) == Expired(m, now) - {t}
  {
    var r := m - multiset{t};
    assert forall a :: a in r <==> a in m && a != t;
  }

  // ---------------------------------------------------------------- what a pass computes

  /** The timers after one action; arming an active timer is a caller's error and skipped. */
  ghost function Acted(m: multiset<Timer>, action: Action): multiset<Timer> {
    match action
    case Arm(t) => if t.id in IdsOf(m) then m else m + multiset{t}
    case Disarm(id) => if t :| t in m && t.id == id then m - multiset{t} else m
  }

  ghost function ActedAll(m: multiset<Timer>, actions: seq<Action>): multiset<Timer> {
    if actions == [] then m else Acted(ActedAll(m, actions[..|actions| - 1]), actions[|actions| - 1])
  }

  /** The timers after t has fired: a repeating one is armed again before its callback acts. */
  ghost function AfterFire(m: multiset<Timer>, t: Timer, now: nat, actions: seq<Action>): multiset<Timer> {
    ActedAll(Rearmed(m - multiset{t}, t, now), actions)
  }

  /** The timer of the next period. */
  function Again(t: Timer, now: nat): Timer {
    t.(deadline := now + t.periodMs * NS_PER_MS)
  }

  ghost function Rearmed(m: multiset<Timer>, t: Timer, now: nat): multiset<Timer> {
    if t.repeat then m + multiset{Again(t, now)} else m
  }

  lemma {:induction false} RearmOnce(m: multiset<Timer>, t: Timer, now: nat)
    requires Once(m) && t.id !in IdsOf(m) && (t.repeat ==> t.periodMs > 0)
    ensures var r := Rearmed(m, t, now);
      Once(r) && IdsOf(r) == (if t.repeat then IdsOf(m) + {t.id} else IdsOf(m)) && Expired(r, now) == Expired(m, now)
  {
    if t.repeat {
      AddOnce(m, Again(t, now), now);
    }
  }

  /** The timers after those of `fired` have fired one after the other, callback n doing script(n). */
  ghost function AfterPass(m: multiset<Timer>, now: nat, script: nat -> seq<Action>, fired: seq<Timer>): multiset<Timer> {
    if fired == [] then m else
      var k: nat := |fired| - 1;
      AfterFire(AfterPass(m, now, script, fired[..k]), fired[k], now, script(k))
  }

  /** Of the timers in due, those dropped were disarmed by the actions and the others are left. */
  ghost predicate Dropping(due: set<Timer>, dropped: set<Timer>, left: set<Timer>, actions: seq<Action>) {
    left == due - dropped && dropped <= due && forall t :: t in dropped ==> Disarm(t.id) in actions
  }

  lemma {:induction false} DropMore(due: set<Timer>, dropped: set<Timer>, left: set<Timer>, d: set<Timer>, left': set<Timer>, actions: seq<Action>, k: nat)
    requires Dropping(due, dropped, left, actions) && k < |actions| && left' == left - d
    requires forall t :: t in d ==> actions[k] == Disarm(t.id) && t in left
    ensures Dropping(due, dropped + d, left', actions)
  {
  }

  lemma {:induction false} ActedNext(m: multiset<Timer>, actions: seq<Action>, k: nat)
    requires k < |actions|
    ensures ActedAll(m, actions[..k + 1]) == Acted(ActedAll(m, actions[..k]), actions[k])
  {
    assert actions[..k + 1][..k] == actions[..k];
  }

  function DroppedBy(r: Popped, now: nat): set<Timer> {
    if r.Due? && r.t.deadline <= now then {r.t} else {}
  }

  lemma {:induction false} ActedDisarm(m: multiset<Timer>, id: nat, r: Popped, now: nat)
    requires Once(m) && (r.Due? <==> id in IdsOf(m)) && (r.Due? ==> r.t in m && r.t.id == id)
    ensures Acted(m, Disarm(id)) == if r.Due? then m - multiset{r.t} else m
    ensures Expired(Acted(m, Disarm(id)), now) == Expired(m, now) - DroppedBy(r, now)
  {
    if r.Due? {
      RemoveOnce(m, r.t, now);
    }
  }

  ghost predicate NeverDisarms(script: nat -> seq<Action>) {
    forall n: nat, j: nat :: j < |script(n)| ==> script(n)[j].Arm?
  }

  /** Every dropped timer was disarmed by one of the first n callbacks. */
  ghost predicate DisarmedBy(dropped: set<Timer>, script: nat -> seq<Action>, n: nat) {
    forall t :: t in dropped ==> exists k: nat :: k < n && Disarm(t.id) in script(k)
  }

  class TimerQueue {
    var data: array<Timer>
    var count: nat
    var active: set<nat>

    ghost function Contents(): seq<Timer>
      reads this, data
    {
      if count <= data.Length then data[..count] else []
    }

    ghost function Bag(): multiset<Timer>
      reads this, data
    {
      multiset(Contents())
    }

    ghost predicate Ordered()
      reads this, data
    {
      count <= data.Length && Heap(Contents())
    }

    /** A timer is active exactly when it is in the heap, once. */
    ghost predicate Valid()
      reads this, data
    {
      Ordered() && Once(Bag()) && active == IdsOf(Bag())
    }

    constructor ()
      ensures Valid() && Contents() == [] && fresh(data)
    {
      data := new Timer[0];
      count, active := 0, {};
    }

    method SwapEntries(i: nat, j: nat)
      requires i < count <= data.Length && j < count
      modifies data
      ensures Contents() == Swap(old(Contents()), i, j)
    {
      data[i], data[j] := data[j], data[i];
    }

    method SiftUpFrom(start: nat)
      requires start < count <= data.Length
      modifies data
      ensures Contents() == SiftUp(old(Contents()), start)
    {
      var idx: nat := start;
      while idx > 0
        invariant idx < count
        invariant SiftUp(Contents(), idx) == SiftUp(old(Contents()), start)
        decreases idx
      {
        var parent: nat := (idx - 1) / 2;
        if data[parent].deadline <= data[idx].deadline {
          break;
        }
        SwapEntries(parent, idx);
        idx := parent;
      }
    }

    method SmallestOf(idx: nat) returns (smallest: nat)
      requires idx < count <= data.Length
      ensures smallest == Smallest(Contents(), idx)
    {
      var left, right := 2 * idx + 1, 2 * idx + 2;
      smallest := idx;
      if left < count && data[left].deadline < data[smallest].deadline {
        smallest := left;
      }
      if right < count && data[right].deadline < data[smallest].deadline {
        smallest := right;
      }
    }

    method SiftDownFrom(start: nat)
      requires start < count <= data.Length
      modifies data
      ensures Contents() == SiftDown(old(Contents()), start)
    {
      var idx: nat := start;
      var smallest := SmallestOf(idx);
      while smallest != idx
        invariant idx < count && smallest == Smallest(Contents(), idx)
        invariant SiftDown(Contents(), idx) == SiftDown(old(Contents()), start)
        decreases count - idx
      {
        SwapEntries(idx, smallest);
        idx := smallest;
        smallest := SmallestOf(idx);
      }
    }

    /** Doubles the capacity until `needed` entries fit; the entries move along. */
    method EnsureCap(needed: nat)
      requires count <= data.Length
      modifies this`data
      ensures needed <= data.Length && Contents() == old(Contents()) && count <= data.Length
      ensures data == old(data) || fresh(data)
    {
      if needed <= data.Length {
        return;
      }
      var newCap := if data.Length > 0 then 2 * data.Length else 16;
      while newCap < needed
        invariant newCap >= data.Length && newCap > 0
        decreases needed - newCap
      {
        newCap := 2 * newCap;
      }
      var bigger := new Timer[newCap](i requires 0 <= i reads this, data => if i < count <= data.Length then data[i] else Timer(0, 0, false, 0));
      assert bigger[..count] == data[..count];
      data := bigger;
    }

    method Push(t: Timer)
      requires Ordered()
      modifies this`data, this`count, data
      ensures Ordered() && Bag() == old(Bag()) + multiset{t}
      ensures data == old(data) || fresh(data)
    {
      ghost var before := Contents();
      EnsureCap(count + 1);
      data[count] := t;
      count := count + 1;
      assert Contents() == before + [t];
      AppendHeap(before, t);
      SiftUpHeap(before + [t], count - 1);
      SiftUpFrom(count - 1);
    }

    /** Takes the entry that is due first. */
    method Pop() returns (r: Popped)
      requires Ordered()
      modifies this`count, data
      ensures Ordered()
      ensures old(count) == 0 ==> r == Nothing && Bag() == old(Bag())
      ensures old(count) > 0 ==> r.Due? && r.t in old(Bag()) && Bag() == old(Bag()) - multiset{r.t}
      ensures old(count) > 0 ==> r.t == old(data[0]) && forall x :: x in old(Bag()) ==> r.t.deadline <= x.deadline
    {
      if count == 0 {
        return Nothing;
      }
      ghost var before := Contents();
      DroppedHeap(before, 0);
      forall k: nat | k < |before|
        ensures before[0].deadline <= before[k].deadline
      {
        RootIsMin(before, k);
      }
      r := Due(data[0]);
      MoveLast(0);
      if count > 0 {
        SiftDownHeap(Contents(), 0);
        SiftDownFrom(0);
      }
    }

    /** Moves entry i, which may be out of order either way, to its place. */
    method Settle(i: nat)
      requires count <= data.Length && HeapBut(Contents(), i)
      modifies data
      ensures Ordered() && Bag() == old(Bag())
    {
      SiftBoth(Contents(), i);
      SiftDownFrom(i);
      SiftUpFrom(i);
    }

    method MoveLast(i: nat)
      requires i < count <= data.Length
      modifies this`count, data
      ensures count == old(count) - 1 && Contents() == Dropped(old(Contents()), i)
    {
      data[i] := data[count - 1];
      count := count - 1;
    }

    /** Takes out entry i, from anywhere. */
    method DropAt(i: nat)
      requires Ordered() && i < count
      modifies this`count, data
      ensures Ordered() && Bag() == old(Bag()) - multiset{old(data[i])}
    {
      DroppedHeap(Contents(), i);
      MoveLast(i);
      if i < count {
        Settle(i);
      }
    }

    /** Takes the entry with this id out of the heap, if it is there. */
    method Remove(id: nat) returns (r: Popped)
      requires Ordered()
      modifies this`count, data
      ensures Ordered()
      ensures id !in old(IdsOf(Bag())) ==> r == Nothing && Bag() == old(Bag())
      ensures id in old(IdsOf(Bag())) ==>
                r.Due? && r.t.id == id && r.t in old(Bag()) && Bag() == old(Bag()) - multiset{r.t}
    {
      var i := 0;
      while i < count && data[i].id != id
        invariant i <= count && forall k: nat :: k < i ==> data[k].id != id
      {
        i := i + 1;
      }
      if i < count {
        r := Due(data[i]);
        assert r.t in Contents() && r.t.id in IdsOf(Bag());
        DropAt(i);
      } else {
        assert forall t :: t in Contents() ==> t.id != id;
        r := Nothing;
      }
    }

    method ArmTimer(t: Timer)
      requires Valid() && t.id !in active
      modifies this, data
      ensures Valid() && Bag() == old(Bag()) + multiset{t}
      ensures data == old(data) || fresh(data)
    {
      AddOnce(Bag(), t, 0);
      active := active + {t.id};
      Push(t);
    }

    /** An inactive timer is left alone; an active one leaves the heap. */
    method DisarmTimer(id: nat) returns (r: Popped)
      requires Valid()
      modifies this, data
      ensures Valid() && active == old(active) - {id} && data == old(data)
      ensures id !in old(active) ==> r == Nothing && Bag() == old(Bag())
      ensures id in old(active) ==> r.Due? && r.t.id == id && r.t in old(Bag()) && Bag() == old(Bag()) - multiset{r.t}
    {
      if id !in active {
        return Nothing;
      }
      active := active - {id};
      ghost var bag := Bag();
      r := Remove(id);
      RemoveOnce(bag, r.t, 0);
    }

    method ActArm(t: Timer, ghost now: nat)
      requires Valid() && t.deadline > now
      modifies this, data
      ensures Valid() && (data == old(data) || fresh(data))
      ensures Bag() == Acted(old(Bag()), Arm(t)) && Expired(Bag(), now) == Expired(old(Bag()), now)
    {
      if t.id !in active {
        AddOnce(Bag(), t, now);
        ArmTimer(t);
      }
    }

    method ActDisarm(id: nat, now: nat) returns (dropped: set<Timer>)
      requires Valid()
      modifies this, data
      ensures Valid() && data == old(data)
      ensures Bag() == Acted(old(Bag()), Disarm(id)) && Expired(Bag(), now) == Expired(old(Bag()), now) - dropped
      ensures forall t :: t in dropped ==> t.id == id && t in Expired(old(Bag()), now)
    {
      ghost var bag := Bag();
      var r := DisarmTimer(id);
      ActedDisarm(bag, id, r, now);
      dropped := DroppedBy(r, now);
    }

    /** One action of a callback. */
    method Act(action: Action, now: nat) returns (dropped: set<Timer>)
      requires Valid() && (action.Arm? ==> action.t.deadline > now)
      modifies this, data
      ensures Valid() && (data == old(data) || fresh(data))
      ensures Bag() == Acted(old(Bag()), action) && Expired(Bag(), now) == Expired(old(Bag()), now) - dropped
      ensures forall t :: t in dropped ==> action == Disarm(t.id) && t in Expired(old(Bag()), now)
    {
      dropped := {};
      match action
      case Arm(t) => ActArm(t, now);
      case Disarm(id) => dropped := ActDisarm(id, now);
    }

    /** Action k of a callback. */
    method ActAt(actions: seq<Action>, k: nat, now: nat, ghost bag: multiset<Timer>, ghost due: set<Timer>, ghost was: set<Timer>) returns (d: set<Timer>)
      requires Valid() && ArmsLater(actions, now) && k < |actions|
      requires Bag() == ActedAll(bag, actions[..k]) && Dropping(due, was, Expired(Bag(), now), actions)
      modifies this, data
      ensures Valid() && (data == old(data) || fresh(data))
      ensures Bag() == ActedAll(bag, actions[..k + 1]) && Dropping(due, was + d, Expired(Bag(), now), actions)
    {
      ghost var left := Expired(Bag(), now);
      d := Act(actions[k], now);
      ActedNext(bag, actions, k);
      DropMore(due, was, left, d, Expired(Bag(), now), actions, k);
    }

    method RunCallback(actions: seq<Action>, now: nat) returns (dropped: set<Timer>)
      requires Valid() && ArmsLater(actions, now)
      modifies this, data
      ensures Valid() && (data == old(data) || fresh(data))
      ensures Bag() == ActedAll(old(Bag()), actions) && Dropping(Expired(old(Bag()), now), dropped, Expired(Bag(), now), actions)
    {
      dropped := {};
      ghost var bag, due := Bag(), Expired(Bag(), now);
      var k := 0;
      while k < |actions|
        invariant k <= |actions| && Valid() && (data == old(data) || fresh(data))
        invariant Bag() == ActedAll(bag, actions[..k]) && Dropping(due, dropped, Expired(Bag(), now), actions)
      {
        var d := ActAt(actions, k, now, bag, due, dropped);
        dropped := dropped + d;
        k := k + 1;
      }
      assert actions[..k] == actions;
    }

    /** Pops the timer that is due first and leaves it marked active. */
    method PopDue(ghost now: nat) returns (t: Timer)
      requires Valid() && count > 0
      modifies this`count, data
      ensures Ordered() && Once(Bag()) && t.id !in IdsOf(Bag()) && active == IdsOf(Bag()) + {t.id}
      ensures t == old(data[0]) && t in old(Bag()) && forall x :: x in old(Bag()) ==> t.deadline <= x.deadline
      ensures Bag() == old(Bag()) - multiset{t}
      ensures Expired(Bag(), now) == Expired(old(Bag()), now) - {t}
    {
      ghost var bag := Bag();
      var r := Pop();
      t := r.t;
      RemoveOnce(bag, t, now);
    }

    /** Pops the timer that is due first; a repeating one is armed again, later. */
    method TakeDue(now: nat) returns (t: Timer)
      requires Valid() && count > 0 && data[0].deadline <= now && (data[0].repeat ==> data[0].periodMs > 0)
      modifies this, data
      ensures Valid() && (data == old(data) || fresh(data))
      ensures t in Expired(old(Bag()), now) && forall x :: x in old(Bag()) ==> t.deadline <= x.deadline
      ensures Expired(Bag(), now) == Expired(old(Bag()), now) - {t} && Bag() == Rearmed(old(Bag()) - multiset{t}, t, now)
    {
      t := PopDue(now);
      Rearm(t, now);
    }

    /** Puts back a timer that is still marked active. */
    method PushActive(t: Timer)
      requires Ordered() && Once(Bag()) && t.id !in IdsOf(Bag()) && active == IdsOf(Bag()) + {t.id}
      modifies this`data, this`count, data
      ensures Valid() && (data == old(data) || fresh(data)) && Bag() == old(Bag()) + multiset{t}
    {
      AddOnce(Bag(), t, 0);
      Push(t);
    }

    method Retire(id: nat)
      requires Ordered() && Once(Bag()) && id !in IdsOf(Bag()) && active == IdsOf(Bag()) + {id}
      modifies this`active
      ensures Valid() && Bag() == old(Bag())
    {
      active := active - {id};
    }

    /** Arms a repeating timer for its next period; any other becomes inactive. */
    method Rearm(t: Timer, now: nat)
      requires Ordered() && Once(Bag()) && t.id !in IdsOf(Bag()) && active == IdsOf(Bag()) + {t.id} && (t.repeat ==> t.periodMs > 0)
      modifies this, data
      ensures Valid() && (data == old(data) || fresh(data))
      ensures Bag() == Rearmed(old(Bag()), t, now) && Expired(Bag(), now) == Expired(old(Bag()), now)
    {
      ghost var bag := Bag();
      RearmOnce(bag, t, now);
      if t.repeat {
        PushActive(Again(t, now));
      } else {
        Retire(t.id);
      }
    }

    /** Fires the timer that is due first: a repeating one is armed again before its callback runs. */
    method FireOne(now: nat, actions: seq<Action>) returns (t: Timer, dropped: set<Timer>)
      requires Valid() && count > 0 && data[0].deadline <= now
      requires data[0].repeat ==> data[0].periodMs > 0
      requires ArmsLater(actions, now)
      modifies this, data
      ensures Valid() && (data == old(data) || fresh(data))
      ensures t in Expired(old(Bag()), now) && forall x :: x in old(Bag()) ==> t.deadline <= x.deadline
      ensures t !in dropped && dropped <= Expired(old(Bag()), now)
      ensures Expired(Bag(), now) == Expired(old(Bag()), now) - {t} - dropped
      ensures Bag() == AfterFire(old(Bag()), t, now, actions) && forall x :: x in dropped ==> Disarm(x.id) in actions
    {
      t := TakeDue(now);
      dropped := RunCallback(actions, now);
    }

    /** One round of the firing pass. */
    method FireNext(now: nat, actions: seq<Action>, ghost due: set<Timer>, ghost fired: seq<Timer>, ghost was: set<Timer>)
      returns (t: Timer, gone: set<Timer>)
      requires Valid() && count > 0 && data[0].deadline <= now && (data[0].repeat ==> data[0].periodMs > 0)
      requires ArmsLater(actions, now) && Progress(due, fired, was, Expired(Bag(), now))
      modifies this, data
      ensures Valid() && (data == old(data) || fresh(data))
      ensures Progress(due, fired + [t], was + gone, Expired(Bag(), now))
      ensures |Expired(Bag(), now)| < |old(Expired(Bag(), now))|
      ensures Bag() == AfterFire(old(Bag()), t, now, actions) && forall x :: x in gone ==> Disarm(x.id) in actions
    {
      ghost var left := Expired(Bag(), now);
      t, gone := FireOne(now, actions);
      ProgressStep(due, fired, was, left, t, gone, Expired(Bag(), now));
    }

    /** The same with what the pass that began with `start` has done so far. */
    method FireRound(now: nat, script: nat -> seq<Action>, ghost due: set<Timer>, ghost start: multiset<Timer>, fired: seq<Timer>, ghost was: set<Timer>)
      returns (t: Timer, gone: set<Timer>)
      requires Valid() && count > 0 && data[0].deadline <= now && ArmsLater(script(|fired|), now)
      requires Progress(due, fired, was, Expired(Bag(), now)) && forall x :: x in due && x.repeat ==> x.periodMs > 0
      requires DisarmedBy(was, script, |fired|) && Bag() == AfterPass(start, now, script, fired)
      modifies this, data
      ensures Valid() && (data == old(data) || fresh(data))
      ensures Progress(due, fired + [t], was + gone, Expired(Bag(), now))
      ensures |Expired(Bag(), now)| < |old(Expired(Bag(), now))|
      ensures DisarmedBy(was + gone, script, |fired + [t]|) && Bag() == AfterPass(start, now, script, fired + [t])
    {
      assert data[0] in Contents() && data[0] in Bag();
      assert data[0] in Expired(Bag(), now) && data[0] in due;
      t, gone := FireNext(now, script(|fired|), due, fired, was);
      PassStep(start, now, script, fired, t);
      DisarmedStep(was, gone, script, |fired|);
    }

    /**
     The firing pass: callback n does `script(n)` and arms only later deadlines. It ends,
     fires every expired timer once, earliest first, unless an earlier callback disarmed it,
     leaves nothing expired, and leaves what firing these timers and running these callbacks
     leaves.
     */
    method FireExpired(now: nat, script: nat -> seq<Action>) returns (fired: seq<Timer>, dropped: set<Timer>)
      requires Valid() && forall n: nat :: ArmsLater(script(n), now)
      requires forall t :: t in Bag() && t.repeat ==> t.periodMs > 0
      modifies this, data
      ensures Valid() && (data == old(data) || fresh(data))
      ensures Expired(Bag(), now) == {}
      ensures (set t | t in fired) + dropped == Expired(old(Bag()), now)
      ensures (set t | t in fired) !! dropped
      ensures forall i, j :: 0 <= i < j < |fired| ==> fired[i] != fired[j] && fired[i].deadline <= fired[j].deadline
      ensures DisarmedBy(dropped, script, |fired|)
      ensures NeverDisarms(script) ==> dropped == {} && (set t | t in fired) == Expired(old(Bag()), now)
      ensures Bag() == AfterPass(old(Bag()), now, script, fired)
    {
      fired, dropped := [], {};
      ghost var due := Expired(Bag(), now);
      ProgressStart(due);
      while count > 0 && data[0].deadline <= now
        invariant Valid() && (data == old(data) || fresh(data))
        invariant Progress(due, fired, dropped, Expired(Bag(), now))
        invariant DisarmedBy(dropped, script, |fired|) && Bag() == AfterPass(old(Bag()), now, script, fired)
        decreases |Expired(Bag(), now)|
      {
        var t, gone := FireRound(now, script, due, old(Bag()), fired, dropped);
        fired := fired + [t];
        dropped := dropped + gone;
      }
      NothingDue(Contents(), now);
      ProgressDone(due, fired, dropped);
      NobodyDisarms(dropped, script, |fired|);
    }
  }

  lemma {:induction false} PassStep(m: multiset<Timer>, now: nat, script: nat -> seq<Action>, fired: seq<Timer>, t: Timer)
    ensures AfterPass(m, now, script, fired + [t]) == AfterFire(AfterPass(m, now, script, fired), t, now, script(|fired|))
  {
    assert (fired + [t])[..|fired|] == fired;
  }

  ghost predicate OnlyArms(actions: seq<Action>) {
    forall j: nat :: j < |actions| ==> actions[j].Arm?
  }

  lemma {:induction false} ActedKeeps(m: multiset<Timer>, actions: seq<Action>, t: Timer)
    requires t in m && OnlyArms(actions)
    ensures t in ActedAll(m, actions)
  {
    if actions != [] {
      var k: nat := |actions| - 1;
      ActedKeeps(m, actions[..k], t);
      assert actions[k].Arm?;
    }
  }

  /** The timer t armed for its period after now; a millisecond is 1000 times 1000 nanoseconds. */
  function DueIn(t: Timer, now: nat): Timer {
    Timer(t.id, now + 1000 * (1000 * t.periodMs), true, t.periodMs)
  }

  lemma {:induction false} FireRearms(m: multiset<Timer>, t: Timer, now: nat, actions: seq<Action>)
    requires t.repeat && OnlyArms(actions)
    ensures DueIn(t, now) in AfterFire(m, t, now, actions)
  {
    assert Again(t, now) == DueIn(t, now);
    ActedKeeps(Rearmed(m - multiset{t}, t, now), actions, DueIn(t, now));
  }

  lemma {:induction false} FireKeeps(m: multiset<Timer>, t: Timer, now: nat, actions: seq<Action>, x: Timer)
    requires x in m && x != t && OnlyArms(actions)
    ensures x in AfterFire(m, t, now, actions)
  {
    ActedKeeps(Rearmed(m - multiset{t}, t, now), actions, x);
  }

  /** A repeating timer of p milliseconds that has fired in a pass is due again p milliseconds after the pass, unless a callback disarms it. */
  lemma {:induction false} DueAgain(m: multiset<Timer>, now: nat, script: nat -> seq<Action>, fired: seq<Timer>, k: nat)
    requires (forall n: nat :: OnlyArms(script(n))) && k < |fired| && fired[k].repeat && fired[k].periodMs > 0
    requires forall i :: 0 <= i < |fired| ==> fired[i].deadline <= now
    ensures DueIn(fired[k], now) in AfterPass(m, now, script, fired)
    decreases |fired|
  {
    var n: nat := |fired| - 1;
    var before := AfterPass(m, now, script, fired[..n]);
    if k < n {
      DueAgain(m, now, script, fired[..n], k);
      FireKeeps(before, fired[n], now, script(n), DueIn(fired[k], now));
    } else {
      FireRearms(before, fired[n], now, script(n));
    }
  }

  lemma {:induction false} DisarmedStep(dropped: set<Timer>, gone: set<Timer>, script: nat -> seq<Action>, n: nat)
    requires DisarmedBy(dropped, script, n) && forall t :: t in gone ==> Disarm(t.id) in script(n)
    ensures DisarmedBy(dropped + gone, script, n + 1)
  {
  }

  lemma {:induction false} NobodyDisarms(dropped: set<Timer>, script: nat -> seq<Action>, n: nat)
    requires DisarmedBy(dropped, script, n)
    ensures NeverDisarms(script) ==> dropped == {}
  {
    if dropped != {} {
      var t :| t in dropped;
      var k: nat :| k < n && Disarm(t.id) in script(k);
      var j: nat :| j < |script(k)| && script(k)[j] == Disarm(t.id);
    }
  }

  /** Fired once each, earliest first, and none later than what is left. */
  ghost predicate FiredInOrder(fired: seq<Timer>, left: set<Timer>) {
    && (forall f, x :: f in fired && x in left ==> f.deadline <= x.deadline && f != x)
    && forall i, j :: 0 <= i < j < |fired| ==> fired[i] != fired[j] && fired[i].deadline <= fired[j].deadline
  }

  /** The timers due at the start are those fired so far, those disarmed, and those left. */
  ghost predicate Parts(due: set<Timer>, fired: set<Timer>, dropped: set<Timer>, left: set<Timer>) {
    fired + dropped + left == due && fired !! dropped && fired !! left && dropped !! left
  }

  ghost predicate Progress(due: set<Timer>, fired: seq<Timer>, dropped: set<Timer>, left: set<Timer>) {
    Parts(due, (set t | t in fired), dropped, left) && FiredInOrder(fired, left)
  }

  lemma {:induction false} ProgressStart(due: set<Timer>)
    ensures Progress(due, [], {}, due)
  {
    assert (set t: Timer | t in []) == {};
  }

  lemma {:induction false} ProgressDone(due: set<Timer>, fired: seq<Timer>, dropped: set<Timer>)
    requires Progress(due, fired, dropped, {})
    ensures (set t | t in fired) + dropped == due && (set t | t in fired) !! dropped
    ensures forall i, j :: 0 <= i < j < |fired| ==> fired[i] != fired[j] && fired[i].deadline <= fired[j].deadline
  {
  }

  lemma {:induction false} PartsStep(due: set<Timer>, fired: set<Timer>, dropped: set<Timer>, left: set<Timer>, t: Timer, gone: set<Timer>)
    requires Parts(due, fired, dropped, left) && t in left && gone <= left && t !in gone
    ensures Parts(due, fired + {t}, dropped + gone, left - {t} - gone)
  {
  }

  lemma {:induction false} OrderStep(fired: seq<Timer>, left: set<Timer>, t: Timer, left': set<Timer>)
    requires FiredInOrder(fired, left) && t in left && left' <= left - {t}
    requires forall x :: x in left ==> t.deadline <= x.deadline
    ensures FiredInOrder(fired + [t], left')
  {
    var all := fired + [t];
    forall i, j | 0 <= i < j < |all|
      ensures all[i] != all[j] && all[i].deadline <= all[j].deadline
    {
      assert all[i] in fired;
    }
  }

  lemma {:induction false} ProgressStep(due: set<Timer>, fired: seq<Timer>, dropped: set<Timer>, left: set<Timer>, t: Timer, gone: set<Timer>, left': set<Timer>)
    requires Progress(due, fired, dropped, left) && t in left && gone <= left && t !in gone && left' == left - {t} - gone
    requires forall x :: x in left ==> t.deadline <= x.deadline
    ensures Progress(due, fired + [t], dropped + gone, left') && |left'| < |left|
  {
    var was, all := set x | x in fired, set x | x in fired + [t];
    assert all == was + {t};
    PartsStep(due, was, dropped, left, t, gone);
    OrderStep(fired, left, t, left');
    Shrinks(left', left, t);
  }

  lemma {:induction false} Shrinks(a: set<Timer>, b: set<Timer>, t: Timer)
    requires a <= b && t in b && t !in a
    ensures |a| < |b|
  {
    if a != {} {
      var x :| x in a;
      Shrinks(a - {x}, b - {x}, t);
    }
  }

  lemma {:induction false} NothingDue(s: seq<Timer>, now: nat)
    requires Heap(s) && (s != [] ==> s[0].deadline > now)
    ensures Expired(multiset(s), now) == {}
  {
    forall t | t in multiset(s)
      ensures t.deadline > now
    {
      assert t in s;
      var k: nat :| k < |s| && s[k] == t;
      RootIsMin(s, k);
    }
  }
}
