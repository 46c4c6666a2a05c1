/**
  The Reducer: objects queued for destruction are discarded and then deleted.
  Discarding an object may queue further objects while the list is being walked,
  and destructors may queue objects for another round.
 */
module Reducer {
  import opened Sequences

  type Object = nat

  /** `onDiscard` and `onDelete` stand for the virtual methods of the objects: the
      objects each call adds to the Reducer's list, given the objects that exist. */
  datatype Behaviour = Behaviour(
    onDiscard: (Object, set<Object>) -> seq<Object>, onDelete: (Object, set<Object>) -> seq<Object>)

  /** Code can only name objects that exist. While its destructor runs an object does. */
  ghost predicate NamesExisting(b: Behaviour) {
    && (forall c, alive: set<Object>, x :: x in b.onDiscard(c, alive) ==> x in alive)
    && (forall c, alive: set<Object>, x :: x in b.onDelete(c, alive) ==> x in alive)
  }

  function ToSet(xs: seq<Object>): set<Object> {
    set x | x in xs
  }

  /** `s` contains whatever discarding one of its members adds. */
  ghost predicate ClosedUnder(b: Behaviour, alive: set<Object>, s: set<Object>) {
    forall c, x :: c in s && x in b.onDiscard(c, alive) ==> x in s
  }

  /** `s` is the least set that contains the listed objects and is closed. */
  ghost predicate LeastClosed(b: Behaviour, alive: set<Object>, listed: seq<Object>, s: set<Object>) {
    && ToSet(listed) <= s && ClosedUnder(b, alive, s)
    && forall other: set<Object> :: ToSet(listed) <= other && ClosedUnder(b, alive, other) ==> s <= other
  }

  /** The objects a round discards from place `i` of the list on, behind those in `queue`. */
  ghost function Walk(b: Behaviour, alive: set<Object>, list: seq<Object>, i: nat, queue: seq<Object>): (r: seq<Object>)
    requires NamesExisting(b) && ToSet(list) <= alive && i <= |list|
    ensures ToSet(queue) <= alive ==> ToSet(r) <= alive
    decreases alive - ToSet(queue), |list| - i
  {
    if i == |list| then queue
    else if list[i] in queue then Walk(b, alive, list, i + 1, queue)
    else
      Grown(queue, list[i], alive);
      Walk(b, alive, list + b.onDiscard(list[i], alive), i + 1, queue + [list[i]])
  }

  /** What the destructors of the first `k` objects of a round add to the list. */
  ghost function AddedBy(b: Behaviour, alive: set<Object>, queue: seq<Object>, k: nat): (r: seq<Object>)
    requires NamesExisting(b) && k <= |queue|
    ensures ToSet(r) <= alive && (k == 0 ==> r == [])
  {
    if k == 0 then [] else AddedBy(b, alive, queue, k - 1) + b.onDelete(queue[k - 1], alive - ToSet(queue[..k - 1]))
  }

  /** In no round does a destructor add an object of that same round. */
  ghost predicate Respectful(b: Behaviour, alive: set<Object>, list: seq<Object>)
    requires NamesExisting(b) && ToSet(list) <= alive
    decreases alive
  {
    var queue := Walk(b, alive, list, 0, []);
    var more := AddedBy(b, alive, queue, |queue|);
    if !(ToSet(more) !! ToSet(queue)) then false
    else if queue == [] then true
    else
      Less(alive, queue);
      Respectful(b, alive - ToSet(queue), more)
  }

  /** An object whose destructor adds that object would be discarded and deleted again. */
  lemma SelfAdding(c: Object, alive: set<Object>) returns (b: Behaviour)
    requires c in alive
    ensures NamesExisting(b) && ToSet([c]) <= alive && !Respectful(b, alive, [c])
  {
    b := Behaviour((_, _) => [], (_, s) => if c in s then [c] else []);
    var queue := Walk(b, alive, [c], 0, []);
    assert [c] + [] == [c] && [] + [c] == [c];
    assert queue == Walk(b, alive, [c], 1, [c]) == [c];
    assert alive - ToSet(queue[..0]) == alive;
    assert c in ToSet(AddedBy(b, alive, queue, 1)) && c in ToSet(queue);
  }

  lemma Less(alive: set<Object>, queue: seq<Object>)
    requires queue != [] && ToSet(queue) <= alive
    ensures alive - ToSet(queue) < alive
  {
    assert queue[0] in ToSet(queue);
  }

  class ReducerHandler {
    var list: seq<Object>
    /** The objects that exist, and what was done to them so far. */
    var alive: set<Object>
    var discarded: seq<Object>
    var deleted: seq<Object>

    constructor (objects: set<Object>)
      ensures list == [] && alive == objects && discarded == [] && deleted == []
    {
      list, alive, discarded, deleted := [], objects, [], [];
    }

    method Add(item: Object)
      modifies this
      ensures list == old(list) + [item]
      ensures alive == old(alive) && discarded == old(discarded) && deleted == old(deleted)
    {
      list := list + [item];
    }

    /** The first loop of Apply, over a list that grows while it is walked. */
    method Discard(b: Behaviour) returns (queue: seq<Object>)
      requires NamesExisting(b) && ToSet(list) <= alive
      modifies this
      ensures NoDuplicates(queue) && LeastClosed(b, alive, old(list), ToSet(queue)) && ToSet(queue) <= alive
      ensures queue == Walk(b, alive, old(list), 0, [])
      ensures discarded == old(discarded) + queue
      ensures alive == old(alive) && deleted == old(deleted) && list == []
    {
      queue := [];
      var i := 0;
      ghost var start := list;
      assert list[..0] == [];
      while i < |list|
        invariant i <= |list| && start <= list && ToSet(list) <= alive
        invariant alive == old(alive) && deleted == old(deleted) && discarded == old(discarded) + queue
        invariant NoDuplicates(queue) && ToSet(queue) == ToSet(list[..i])
        invariant Walk(b, alive, list, i, queue) == Walk(b, alive, start, 0, [])
        invariant forall c, x :: c in queue && x in b.onDiscard(c, alive) ==> x in list
        invariant forall s: set<Object> :: ToSet(start) <= s && ClosedUnder(b, alive, s) ==> ToSet(list) <= s
        decreases alive - ToSet(queue), |list| - i
      {
        var c := list[i];
        assert list[..i + 1] == list[..i] + [c];
        ghost var before, seen := list, queue;
        if c !in queue {
          list := list + b.onDiscard(c, alive);
          discarded := discarded + [c];
          queue := queue + [c];
          assert list[..i + 1] == before[..i + 1];
          Grown(seen, c, alive);
        }
        i := i + 1;
        assert list[..i] == before[..i - 1] + [c];
        PlusOne(before[..i - 1], c);
        PlusOne(seen, c);
      }
      assert list[..i] == list;
      list := [];
    }

    /** The second loop of Apply. */
    method Delete(b: Behaviour, queue: seq<Object>)
      requires NamesExisting(b) && list == [] && ToSet(queue) <= alive && NoDuplicates(queue)
      modifies this
      ensures alive == old(alive) - ToSet(queue) && deleted == old(deleted) + queue && discarded == old(discarded)
      ensures list == AddedBy(b, old(alive), queue, |queue|)
    {
      for i := 0 to |queue|
        invariant alive == old(alive) - ToSet(queue[..i]) && deleted == old(deleted) + queue[..i]
        invariant discarded == old(discarded) && list == AddedBy(b, old(alive), queue, i)
      {
        var c := queue[i];
        assert queue[..i + 1] == queue[..i] + [c];
        PlusOne(queue[..i], c);
        list := list + b.onDelete(c, alive);
        alive, deleted := alive - {c}, deleted + [c];
      }
      assert queue[..|queue|] == queue;
    }

    /** Every object that is listed, or becomes listed, is discarded once and then deleted
        once, however often it was added, and nothing is left in the list, exactly if no
        destructor adds an object of its own round. Otherwise a round would begin with a
        deleted object; there the model stops, as what the code does then is undefined. */
    method Apply(b: Behaviour) returns (sound: bool)
      requires NamesExisting(b) && ToSet(list) <= alive
      modifies this
      ensures sound <==> Respectful(b, old(alive), old(list))
      ensures sound ==> list == [] && ToSet(old(list)) !! alive
      ensures !sound ==> exists x :: x in list && x in deleted && x !in alive
      ensures alive <= old(alive)
      ensures exists gone: seq<Object> ::
                && deleted == old(deleted) + gone && discarded == old(discarded) + gone
                && NoDuplicates(gone) && ToSet(gone) == old(alive) - alive
      decreases alive
    {
      var queue := Discard(b);
      Delete(b, queue);
      ghost var middle := alive;
      assert deleted == old(deleted) + queue && discarded == old(discarded) + queue;
      if list == [] {
        return true;
      }
      assert queue != [] && queue[0] in ToSet(queue);
      if !(ToSet(list) <= alive) {
        Dangling(ToSet(list), old(alive), queue, old(deleted));
        return false;
      }
      ghost var deleted', discarded' := deleted, discarded;
      sound := Apply(b);
      ghost var gone: seq<Object> :| deleted == deleted' + gone && discarded == discarded' + gone
                                     && NoDuplicates(gone) && ToSet(gone) == middle - alive;
      Joined(queue, gone);
      assert deleted == old(deleted) + (queue + gone);
      assert discarded == old(discarded) + (queue + gone);
    }
  }

  lemma Dangling(listed: set<Object>, alive: set<Object>, queue: seq<Object>, before: seq<Object>)
    requires listed <= alive && !(listed <= alive - ToSet(queue))
    ensures exists x :: x in listed && x in before + queue && x !in alive - ToSet(queue)
  {
    var x :| x in listed && x !in alive - ToSet(queue);
    assert x in ToSet(queue);
  }

  lemma PlusOne(xs: seq<Object>, c: Object)
    ensures ToSet(xs + [c]) == ToSet(xs) + {c}
  {
    assert c in xs + [c];
  }

  lemma Grown(seen: seq<Object>, c: Object, alive: set<Object>)
    requires c !in seen && c in alive
    ensures alive - ToSet(seen + [c]) < alive - ToSet(seen)
  {
    assert c in alive - ToSet(seen) && c in ToSet(seen + [c]);
  }

  lemma Joined(a: seq<Object>, b: seq<Object>)
    requires NoDuplicates(a) && NoDuplicates(b) && ToSet(a) !! ToSet(b)
    ensures NoDuplicates(a + b) && ToSet(a + b) == ToSet(a) + ToSet(b)
  {
    forall i, j | 0 <= i < j < |a + b| ensures (a + b)[i] != (a + b)[j] {
      if i < |a| <= j {
        assert a[i] in ToSet(a) && b[j - |a|] in ToSet(b);
      }
    }
  }
}
