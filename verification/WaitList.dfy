/** Sequence facts shared by the waiter queues. */
module Lists {
  /** The list without its first occurrence of x. */
  function Remove<T(==)>(l: seq<T>, x: T): seq<T> {
    if l == [] then [] else if l[0] == x then l[1..] else [l[0]] + Remove(l[1..], x)
  }

  ghost predicate NoDup<T>(l: seq<T>) {
    forall i, j :: 0 <= i < j < |l| ==> l[i] != l[j]
  }

  lemma {:induction false} RemoveFacts<T>(l: seq<T>, x: T)
    requires NoDup(l)
    ensures forall y :: y in Remove(l, x) <==> y in l && y != x
    ensures NoDup(Remove(l, x))
    ensures |Remove(l, x)| == if x in l then |l| - 1 else |l|
  {
    if l != [] {
      assert l == [l[0]] + l[1..];
      if l[0] == x {
        assert forall i :: 0 < i < |l| ==> l[i] != l[0];
      } else {
        RemoveFacts(l[1..], x);
        assert l[0] !in Remove(l[1..], x);
      }
    }
  }

  /** Removing by position: x sits at index i, or nowhere when i is the length. */
  lemma {:induction false} RemoveAt<T>(l: seq<T>, x: T, i: nat)
    requires i <= |l| && (forall j :: 0 <= j < i ==> l[j] != x) && (i < |l| ==> l[i] == x)
    ensures Remove(l, x) == if i < |l| then l[..i] + l[i + 1..] else l
  {
    if i > 0 {
      RemoveAt(l[1..], x, i - 1);
      assert l == [l[0]] + l[1..];
      if i < |l| {
        assert [l[0]] + (l[1..][..i - 1] + l[1..][i..]) == l[..i] + l[i + 1..];
      }
    }
  }

  /** What survives a removal keeps its order: the smaller list embeds in the larger one. */
  lemma {:induction false} RemoveKeepsOrder<T>(l: seq<T>, x: T, i: nat, j: nat) returns (i': nat, j': nat)
    requires i < j < |Remove(l, x)|
    ensures i' < j' < |l| && l[i'] == Remove(l, x)[i] && l[j'] == Remove(l, x)[j]
  {
    if l[0] == x {
      i', j' := i + 1, j + 1;
    } else if i == 0 {
      i' := 0;
      j' := RemoveEmbeds(l[1..], x, j - 1);
      j' := j' + 1;
    } else {
      i', j' := RemoveKeepsOrder(l[1..], x, i - 1, j - 1);
      i', j' := i' + 1, j' + 1;
    }
  }

  lemma {:induction false} RemoveEmbeds<T>(l: seq<T>, x: T, i: nat) returns (i': nat)
    requires i < |Remove(l, x)|
    ensures i' < |l| && l[i'] == Remove(l, x)[i]
  {
    if l[0] == x {
      i' := i + 1;
    } else if i == 0 {
      i' := 0;
    } else {
      i' := RemoveEmbeds(l[1..], x, i - 1);
      i' := i' + 1;
    }
  }
}

/**
 The intrusive waiter queue: nodes chained through `next`, a head and a tail pointer.
 `nodes` is the queue the chain stands for.
 */
module WaitLists {
  import opened Lists

  class Node {
    const cr: nat
    var next: Node?

    constructor (cr: nat)
      ensures this.cr == cr && next == null
    {
      this.cr, next := cr, null;
    }
  }

  /** The node that follows position i. */
  ghost function After(nodes: seq<Node>, i: nat): Node? {
    if i + 1 < |nodes| then nodes[i + 1] else null
  }

  /** Position k of the list without position i, and what follows it, in terms of the whole list. */
  lemma {:induction false} AfterRemoved(nodes: seq<Node>, i: nat, rest: seq<Node>, k: nat)
    requires i < |nodes| && rest == nodes[..i] + nodes[i + 1..] && k < |rest|
    ensures rest[k] == nodes[if k < i then k else k + 1]
    ensures After(rest, k) == if k + 1 < i then After(nodes, k) else if k + 1 == i then After(nodes, i) else After(nodes, k + 1)
  {
  }

  class WaitList {
    var head: Node?
    var tail: Node?
    ghost var nodes: seq<Node>

    ghost predicate Valid()
      reads this, nodes
    {
      && NoDup(nodes)
      && head == (if nodes == [] then null else nodes[0])
      && tail == (if nodes == [] then null else nodes[|nodes| - 1])
      && forall i: nat {:trigger After(nodes, i)} :: i < |nodes| ==> nodes[i].next == After(nodes, i)
    }

    constructor ()
      ensures Valid() && nodes == []
    {
      head, tail, nodes := null, null, [];
    }

    /** A parked node joins at the tail. */
    method Push(n: Node)
      requires Valid() && n !in nodes
      modifies this, nodes, n
      ensures Valid() && nodes == old(nodes) + [n]
    {
      assert forall i: nat {:trigger After(nodes + [n], i)} ::
          i < |nodes| ==> After(nodes + [n], i) == if i + 1 < |nodes| then After(nodes, i) else n;
      n.next := null;
      if tail != null {
        tail.next := n;
      } else {
        head := n;
      }
      tail := n;
      nodes := nodes + [n];
    }

    /** The longest parked node leaves, unlinked; null from an empty queue. */
    method Pop() returns (n: Node?)
      requires Valid()
      modifies this, nodes
      ensures Valid()
      ensures old(nodes) == [] ==> n == null && nodes == []
      ensures old(nodes) != [] ==> n == old(nodes)[0] && n.next == null && nodes == old(nodes)[1..]
    {
      n := head;
      if n != null {
        assert n.next == After(nodes, 0);
        assert forall i: nat {:trigger After(nodes[1..], i)} :: i + 1 < |nodes| ==> After(nodes[1..], i) == After(nodes, i + 1);
        head := n.next;
        if head == null {
          tail := null;
        }
        n.next := null;
        nodes := nodes[1..];
      }
    }

    /** A cancel or deadline takes its node out from anywhere; a node not linked is left alone. */
    method RemoveNode(n: Node)
      requires Valid()
      modifies this, nodes
      ensures Valid() && nodes == Remove(old(nodes), n)
      ensures n in old(nodes) ==> n.next == null
    {
      var prev: Node? := null;
      var cur := head;
      ghost var i := 0;
      while cur != null && cur != n
        invariant i <= |nodes| && cur == (if i < |nodes| then nodes[i] else null)
        invariant prev == if i == 0 then null else nodes[i - 1]
        invariant forall j :: 0 <= j < i ==> nodes[j] != n
        decreases |nodes| - i
      {
        assert cur.next == After(nodes, i);
        prev := cur;
        cur := cur.next;
        i := i + 1;
      }
      RemoveAt(nodes, n, i);
      if cur != null {
        Unlink(prev, n, i);
      }
    }

    /** Takes out node n at position i, whose predecessor is prev. */
    method Unlink(prev: Node?, n: Node, ghost i: nat)
      requires Valid() && i < |nodes| && nodes[i] == n && prev == if i == 0 then null else nodes[i - 1]
      modifies this, nodes
      ensures Valid() && nodes == old(nodes[..i] + nodes[i + 1..]) && n.next == null
    {
      ghost var rest := nodes[..i] + nodes[i + 1..];
      RestDistinct(nodes, i, rest);
      assert n.next == After(nodes, i);
      if prev == null {
        head := n.next;
      } else {
        prev.next := n.next;
      }
      if tail == n {
        tail := prev;
      }
      n.next := null;
      forall k: nat | k < |rest|
        ensures rest[k].next == After(rest, k)
      {
        AfterRemoved(nodes, i, rest, k);
      }
      nodes := rest;
    }
  }

  /** The other nodes are distinct, are not the removed one, and only one of them is its predecessor. */
  lemma {:induction false} RestDistinct(nodes: seq<Node>, i: nat, rest: seq<Node>)
    requires NoDup(nodes) && i < |nodes| && rest == nodes[..i] + nodes[i + 1..]
    ensures NoDup(rest) && forall k: nat :: k < |rest| ==> rest[k] != nodes[i] && (i > 0 && rest[k] == nodes[i - 1] ==> k == i - 1)
  {
    forall k: nat | k < |rest|
      ensures rest[k] == nodes[if k < i then k else k + 1]
    {
    }
  }
}
