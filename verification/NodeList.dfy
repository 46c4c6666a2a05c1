/**
  The intrusive doubly linked lists: nodes carry their own links, and a list knows its
  head, its size and, in one of the two variants, its tail.

  The ghost `spine` is the sequence a list stands for.
 */
module NodeList {
  import opened Sequences

  class Node {
    var next: Node?
    var prev: Node?

    constructor ()
      ensures Unlinked()
    {
      next, prev := null, null;
    }

    /** Not in any list, and ready to be put into one. */
    predicate Unlinked()
      reads this
    {
      next == null && prev == null
    }

    ghost function Neighbours(): set<Node>
      reads this
    {
      (if next == null then {} else {next}) + (if prev == null then {} else {prev})
    }

    /** Joins the neighbours and forgets them. */
    method Unlink()
      requires next != this && prev != this && (next != null ==> next != prev)
      modifies this, Neighbours()
      ensures Unlinked()
      ensures old(next) != null ==> old(next).prev == old(prev) && old(next).next == old(next.next)
      ensures old(prev) != null ==> old(prev).next == old(next) && old(prev).prev == old(prev.prev)
    {
      if next != null {
        next.prev := prev;
      }
      if prev != null {
        prev.next := next;
      }
      next, prev := null, null;
    }
  }

  function At(spine: seq<Node>, i: int): Node? {
    if 0 <= i < |spine| then spine[i] else null
  }

  /** Node `i` points to the one behind it and to the one before it. */
  ghost predicate LinkedAt(spine: seq<Node>, i: nat)
    requires i < |spine|
    reads spine[i]
  {
    spine[i].next == At(spine, i + 1) && spine[i].prev == At(spine, i - 1)
  }

  ghost predicate Linked(spine: seq<Node>)
    reads spine
  {
    NoDuplicates(spine) && forall i: nat :: i < |spine| ==> LinkedAt(spine, i)
  }

  function Without(spine: seq<Node>, k: nat): seq<Node>
    requires k < |spine|
  {
    spine[..k] + spine[k + 1..]
  }

  lemma WithoutAt(spine: seq<Node>, k: nat, i: nat)
    requires k < |spine| && i < |spine| - 1
    ensures Without(spine, k)[i] == spine[if i < k then i else i + 1]
  {
  }

  lemma WithoutNoDuplicates(spine: seq<Node>, k: nat)
    requires k < |spine| && NoDuplicates(spine)
    ensures NoDuplicates(Without(spine, k)) && spine[k] !in Without(spine, k)
  {
  }

  /** Taking a node out of a chain leaves a chain and a free node. */
  method Detach(x: Node, ghost spine: seq<Node>, ghost k: nat)
    requires Linked(spine) && k < |spine| && spine[k] == x
    modifies spine
    ensures Linked(Without(spine, k)) && x.Unlinked() && x !in Without(spine, k)
  {
    assert LinkedAt(spine, k);
    x.Unlink();
    ghost var r := Without(spine, k);
    WithoutNoDuplicates(spine, k);
    forall i: nat | i < |r| ensures LinkedAt(r, i) {
      var j := if i < k then i else i + 1;
      WithoutAt(spine, k, i);
      assert old(LinkedAt(spine, j));
      assert spine[j] != x;
    }
  }

  /** A free node joins a chain at its head. */
  method AttachFront(x: Node, head: Node, ghost spine: seq<Node>)
    requires Linked(spine) && spine != [] && spine[0] == head && x.Unlinked() && x !in spine
    modifies x, spine
    ensures Linked([x] + spine)
  {
    assert LinkedAt(spine, 0);
    x.next := head;
    head.prev := x;
    ghost var r := [x] + spine;
    forall i: nat | i < |r| ensures LinkedAt(r, i) {
      assert i > 0 ==> r[i] == spine[i - 1] && old(LinkedAt(spine, i - 1));
    }
  }

  /** A free node joins a chain at its tail. */
  method AttachBack(x: Node, tail: Node, ghost spine: seq<Node>)
    requires Linked(spine) && spine != [] && spine[|spine| - 1] == tail && x.Unlinked() && x !in spine
    modifies x, spine
    ensures Linked(spine + [x])
  {
    assert LinkedAt(spine, |spine| - 1);
    x.prev := tail;
    tail.next := x;
    ghost var r := spine + [x];
    forall i: nat | i < |r| ensures LinkedAt(r, i) {
      assert i < |spine| ==> r[i] == spine[i] && old(LinkedAt(spine, i));
    }
  }

  lemma OneIsLinked(x: Node)
    requires x.Unlinked()
    ensures Linked([x])
  {
  }

  /** The list without a tail pointer. */
  class List {
    var head: Node?
    var size: nat
    ghost var spine: seq<Node>

    ghost predicate Valid()
      reads this, spine
    {
      Linked(spine) && head == At(spine, 0) && size == |spine|
    }

    constructor ()
      ensures Valid() && spine == []
    {
      head, size, spine := null, 0, [];
    }

    method PushFront(x: Node)
      requires Valid() && x.Unlinked() && x !in spine
      modifies this, x, spine
      ensures Valid() && spine == [x] + old(spine)
    {
      if size > 0 {
        AttachFront(x, head, spine);
      } else {
        OneIsLinked(x);
        assert [x] + spine == [x];
      }
      size := size + 1;
      head := x;
      spine := [x] + spine;
    }

    method PopFront()
      requires Valid() && spine != []
      modifies this, spine
      ensures Valid() && spine == old(spine[1..]) && old(head).Unlinked()
    {
      Erase(head, 0);
    }

    /** Erases a member, at whatever place `k` it is. The node is free afterwards, and may
        be pushed again. */
    method Erase(x: Node, ghost k: nat)
      requires Valid() && k < |spine| && spine[k] == x
      modifies this, spine
      ensures Valid() && spine == Without(old(spine), k) && x.Unlinked() && x !in spine
    {
      assert LinkedAt(spine, k);
      if head == x {
        head := x.next;
      }
      Detach(x, spine, k);
      size := size - 1;
      spine := Without(spine, k);
    }

    /** Walking the links from the head visits exactly the sequence. */
    method Walk() returns (visited: seq<Node>)
      requires Valid()
      ensures visited == spine
    {
      visited := [];
      var curr := head;
      while curr != null
        invariant |visited| <= |spine| && visited == spine[..|visited|] && curr == At(spine, |visited|)
        decreases |spine| - |visited|
      {
        assert LinkedAt(spine, |visited|);
        visited := visited + [curr];
        curr := curr.next;
      }
    }
  }

  /** The list with a tail pointer. */
  class ListTail {
    var head: Node?
    var tail: Node?
    var size: nat
    ghost var spine: seq<Node>

    ghost predicate Valid()
      reads this, spine
    {
      Linked(spine) && head == At(spine, 0) && tail == At(spine, |spine| - 1) && size == |spine|
    }

    constructor ()
      ensures Valid() && spine == []
    {
      head, tail, size, spine := null, null, 0, [];
    }

    method PushFront(x: Node)
      requires Valid() && x.Unlinked() && x !in spine
      modifies this, x, spine
      ensures Valid() && spine == [x] + old(spine)
    {
      if size > 0 {
        AttachFront(x, head, spine);
      } else {
        OneIsLinked(x);
        assert [x] + spine == [x];
        tail := x;
      }
      size := size + 1;
      head := x;
      spine := [x] + spine;
    }

    method PushBack(x: Node)
      requires Valid() && x.Unlinked() && x !in spine
      modifies this, x, spine
      ensures Valid() && spine == old(spine) + [x]
    {
      if size > 0 {
        AttachBack(x, tail, spine);
      } else {
        OneIsLinked(x);
        assert spine + [x] == [x];
        head := x;
      }
      size := size + 1;
      tail := x;
      spine := spine + [x];
    }

    method PopFront()
      requires Valid() && spine != []
      modifies this, spine
      ensures Valid() && spine == old(spine[1..]) && old(head).Unlinked()
    {
      Erase(head, 0);
    }

    method PopBack()
      requires Valid() && spine != []
      modifies this, spine
      ensures Valid() && spine == old(spine[..|spine| - 1]) && old(tail).Unlinked()
    {
      Erase(tail, |spine| - 1);
    }

    /** Erases a member, at whatever place `k` it is. The node is free afterwards, and may
        be pushed again. */
    method Erase(x: Node, ghost k: nat)
      requires Valid() && k < |spine| && spine[k] == x
      modifies this, spine
      ensures Valid() && spine == Without(old(spine), k) && x.Unlinked() && x !in spine
    {
      assert LinkedAt(spine, k);
      if head == x {
        head := x.next;
      }
      if tail == x {
        tail := x.prev;
      }
      Detach(x, spine, k);
      size := size - 1;
      spine := Without(spine, k);
    }
  }
}
