/**
  The flat containers: sets, maps and multisets kept as one sorted vector that is
  searched by bisection.

  Elements carry a key; keys are compared by a strict weak order whose equivalence
  classes are named by `canon`.  A unique container stands for a map from classes to
  elements, a multi container for a multiset of elements.
 */
module FlatMap {
  import opened Wrappers
  import opened Bytes
  import opened CaseFold

  datatype Order<!T, !K, !C> = Order(key: T -> K, lt: (K, K) -> bool, canon: K -> C)

  /** Irreflexive, transitive, and incomparable exactly within a class. */
  ghost predicate WeakAt<T, K, C>(o: Order<T, K, C>, a: K, b: K, c: K) {
    && !o.lt(a, a)
    && (o.lt(a, b) && o.lt(b, c) ==> o.lt(a, c))
    && (!o.lt(a, b) && !o.lt(b, a) <==> o.canon(a) == o.canon(b))
  }

  ghost predicate StrictWeak<T, K(!new), C>(o: Order<T, K, C>) {
    forall a, b, c :: WeakAt(o, a, b, c)
  }

  /** Keys of one class compare alike with every key. */
  lemma SameClass<T, K(!new), C>(o: Order<T, K, C>, a: K, b: K, x: K)
    requires StrictWeak(o) && o.canon(a) == o.canon(b)
    ensures o.lt(a, x) == o.lt(b, x) && o.lt(x, a) == o.lt(x, b)
  {
    assert WeakAt(o, a, b, x) && WeakAt(o, a, x, b) && WeakAt(o, x, a, b);
    assert WeakAt(o, b, a, x) && WeakAt(o, b, x, a) && WeakAt(o, x, b, a);
  }

  lemma Asymmetric<T, K(!new), C>(o: Order<T, K, C>, a: K, b: K)
    requires StrictWeak(o)
    ensures !o.lt(a, b) || !o.lt(b, a)
    ensures !o.lt(a, b) && !o.lt(b, a) <==> o.canon(a) == o.canon(b)
  {
    assert WeakAt(o, a, b, a);
  }

  /** What is not before something after `k` is after `k`. */
  lemma Later<T, K(!new), C>(o: Order<T, K, C>, k: K, a: K, b: K)
    requires StrictWeak(o) && o.lt(k, a) && !o.lt(b, a)
    ensures o.lt(k, b)
  {
    if o.canon(k) == o.canon(b) {
      SameClass(o, k, b, a);
    }
    assert WeakAt(o, b, k, a);
  }

  /** What is not before something that is not before `k` is not before `k`. */
  lemma NotBefore<T, K(!new), C>(o: Order<T, K, C>, k: K, a: K, b: K)
    requires StrictWeak(o) && !o.lt(a, k) && !o.lt(b, a)
    ensures !o.lt(b, k)
  {
    if o.canon(k) == o.canon(a) {
      SameClass(o, k, a, b);
    }
    assert WeakAt(o, b, k, a) && WeakAt(o, a, k, a);
  }

  ghost predicate Sorted<T, K, C>(o: Order<T, K, C>, s: seq<T>) {
    forall i, j :: 0 <= i < j < |s| ==> !o.lt(o.key(s[j]), o.key(s[i]))
  }

  ghost predicate Strict<T, K, C>(o: Order<T, K, C>, s: seq<T>) {
    forall i, j :: 0 <= i < j < |s| ==> o.lt(o.key(s[i]), o.key(s[j]))
  }

  lemma StrictIsSorted<T, K(!new), C>(o: Order<T, K, C>, s: seq<T>)
    requires StrictWeak(o) && Strict(o, s)
    ensures Sorted(o, s)
  {
    forall i, j | 0 <= i < j < |s| ensures !o.lt(o.key(s[j]), o.key(s[i])) {
      Asymmetric(o, o.key(s[i]), o.key(s[j]));
    }
  }

  // ------------------------------------------------- where a key belongs

  /** How many elements at the head of `s` lie before `k`. */
  function Lower<T, K, C>(o: Order<T, K, C>, s: seq<T>, k: K): (i: nat)
    ensures i <= |s|
  {
    if s == [] || !o.lt(o.key(s[0]), k) then 0 else 1 + Lower(o, s[1..], k)
  }

  /** How many elements at the head of `s` do not lie after `k`. */
  function Upper<T, K, C>(o: Order<T, K, C>, s: seq<T>, k: K): (i: nat)
    ensures i <= |s|
  {
    if s == [] || o.lt(k, o.key(s[0])) then 0 else 1 + Upper(o, s[1..], k)
  }

  ghost predicate Splits<T, K, C>(o: Order<T, K, C>, s: seq<T>, k: K, i: nat) {
    && i <= |s|
    && (forall j :: 0 <= j < i ==> o.lt(o.key(s[j]), k))
    && (forall j :: i <= j < |s| ==> !o.lt(o.key(s[j]), k))
  }

  ghost predicate SplitsAfter<T, K, C>(o: Order<T, K, C>, s: seq<T>, k: K, i: nat) {
    && i <= |s|
    && (forall j :: 0 <= j < i ==> !o.lt(k, o.key(s[j])))
    && (forall j :: i <= j < |s| ==> o.lt(k, o.key(s[j])))
  }

  lemma {:induction false} LowerUnique<T, K, C>(o: Order<T, K, C>, s: seq<T>, k: K, i: nat)
    requires Splits(o, s, k, i)
    ensures Lower(o, s, k) == i
  {
    if i > 0 {
      assert o.lt(o.key(s[0]), k);
      forall j | 0 <= j < |s[1..]| ensures s[1..][j] == s[j + 1] {
      }
      LowerUnique(o, s[1..], k, i - 1);
    }
  }

  lemma {:induction false} UpperUnique<T, K, C>(o: Order<T, K, C>, s: seq<T>, k: K, i: nat)
    requires SplitsAfter(o, s, k, i)
    ensures Upper(o, s, k) == i
  {
    if i > 0 {
      assert !o.lt(k, o.key(s[0]));
      forall j | 0 <= j < |s[1..]| ensures s[1..][j] == s[j + 1] {
      }
      UpperUnique(o, s[1..], k, i - 1);
    }
  }

  /** In a sorted vector the elements before `k` are exactly the head. */
  lemma {:induction false} LowerSplits<T, K(!new), C>(o: Order<T, K, C>, s: seq<T>, k: K)
    requires StrictWeak(o) && Sorted(o, s)
    ensures Splits(o, s, k, Lower(o, s, k))
  {
    if s != [] {
      forall j | 0 <= j < |s[1..]| ensures s[1..][j] == s[j + 1] {
      }
      LowerSplits(o, s[1..], k);
      if o.lt(o.key(s[0]), k) {
        var i := Lower(o, s, k);
        forall j | 0 <= j < i ensures o.lt(o.key(s[j]), k) {
          assert j > 0 ==> s[j] == s[1..][j - 1];
        }
        forall j | i <= j < |s| ensures !o.lt(o.key(s[j]), k) {
          assert s[j] == s[1..][j - 1];
        }
      } else {
        forall j | 0 <= j < |s| ensures !o.lt(o.key(s[j]), k) {
          if j > 0 {
            NotBefore(o, k, o.key(s[0]), o.key(s[j]));
          }
        }
      }
    }
  }

  lemma {:induction false} UpperSplits<T, K(!new), C>(o: Order<T, K, C>, s: seq<T>, k: K)
    requires StrictWeak(o) && Sorted(o, s)
    ensures SplitsAfter(o, s, k, Upper(o, s, k)) && Lower(o, s, k) <= Upper(o, s, k)
  {
    if s != [] {
      forall j | 0 <= j < |s[1..]| ensures s[1..][j] == s[j + 1] {
      }
      UpperSplits(o, s[1..], k);
      if o.lt(k, o.key(s[0])) {
        forall j | 0 <= j < |s| ensures o.lt(k, o.key(s[j])) {
          if j > 0 {
            Later(o, k, o.key(s[0]), o.key(s[j]));
          }
        }
        Asymmetric(o, k, o.key(s[0]));
      } else {
        var i := Upper(o, s, k);
        forall j | 0 <= j < i ensures !o.lt(k, o.key(s[j])) {
          assert j > 0 ==> s[j] == s[1..][j - 1];
        }
        forall j | i <= j < |s| ensures o.lt(k, o.key(s[j])) {
          assert s[j] == s[1..][j - 1];
        }
      }
    }
  }

  /** Bisection for the first element that is not before `k`. */
  method LowerBound<T, K(!new), C>(o: Order<T, K, C>, s: seq<T>, k: K) returns (i: nat)
    requires StrictWeak(o) && Sorted(o, s)
    ensures i == Lower(o, s, k)
  {
    LowerSplits(o, s, k);
    i := 0;
    var len := |s|;
    while len > 0
      invariant i <= Lower(o, s, k) <= i + len <= |s|
    {
      var half := len / 2;
      if o.lt(o.key(s[i + half]), k) {
        i, len := i + half + 1, len - half - 1;
      } else {
        len := half;
      }
    }
  }

  /** Bisection for the first element that is after `k`. */
  method UpperBound<T, K(!new), C>(o: Order<T, K, C>, s: seq<T>, k: K) returns (i: nat)
    requires StrictWeak(o) && Sorted(o, s)
    ensures i == Upper(o, s, k)
  {
    UpperSplits(o, s, k);
    i := 0;
    var len := |s|;
    while len > 0
      invariant i <= Upper(o, s, k) <= i + len <= |s|
    {
      var half := len / 2;
      if !o.lt(k, o.key(s[i + half])) {
        i, len := i + half + 1, len - half - 1;
      } else {
        len := half;
      }
    }
  }

  // ------------------------------------------------- the operations on the vector

  function Find<T, K, C>(o: Order<T, K, C>, s: seq<T>, k: K): (r: Option<nat>)
    ensures r.Some? ==> r.value < |s|
  {
    var i := Lower(o, s, k);
    if i < |s| && !o.lt(k, o.key(s[i])) then Some(i) else None
  }

  function Place<T, K, C>(o: Order<T, K, C>, s: seq<T>, e: T): seq<T> {
    var i := Lower(o, s, o.key(e));
    s[..i] + [e] + s[i..]
  }

  function InsertSingle<T, K, C>(o: Order<T, K, C>, s: seq<T>, e: T): seq<T> {
    if Find(o, s, o.key(e)).Some? then s else Place(o, s, e)
  }

  function EraseAll<T, K(!new), C>(o: Order<T, K, C>, s: seq<T>, k: K): seq<T>
  {
    var lo, hi := Lower(o, s, k), Upper(o, s, k);
    if lo <= hi then s[..lo] + s[hi..] else s
  }

  /** The container. `Set` and `map` use only the single insertions and stay strict. */
  class FlatBase<T, K(!new), C> {
    const o: Order<T, K, C>
    var vect: seq<T>

    ghost predicate Valid()
      reads this
    {
      StrictWeak(o) && Sorted(o, vect)
    }

    constructor (order: Order<T, K, C>)
      requires StrictWeak(order)
      ensures Valid() && o == order && vect == []
    {
      o, vect := order, [];
    }

    /** The index `find` returns, or the end. */
    method FindKey(k: K) returns (i: nat)
      requires Valid()
      ensures i == match Find(o, vect, k) case Some(j) => j case None => |vect|
    {
      i := LowerBound(o, vect, k);
      if i == |vect| || o.lt(k, o.key(vect[i])) {
        i := |vect|;
      }
    }

    method Count(k: K) returns (n: nat)
      requires Valid()
      ensures n == Upper(o, vect, k) - Lower(o, vect, k)
    {
      UpperSplits(o, vect, k);
      var lo := LowerBound(o, vect, k);
      var hi := UpperBound(o, vect, k);
      n := hi - lo;
    }

    method Insert(e: T) returns (at: nat, inserted: bool)
      requires Valid()
      modifies this
      ensures Valid() && vect == InsertSingle(o, old(vect), e)
      ensures inserted == Find(o, old(vect), o.key(e)).None?
      ensures at == Lower(o, old(vect), o.key(e)) && at < |vect|
      ensures old(Strict(o, vect)) ==> Strict(o, vect)
    {
      inserted := false;
      at := LowerBound(o, vect, o.key(e));
      if at == |vect| || o.lt(o.key(e), o.key(vect[at])) {
        inserted := true;
        PlaceSorted(o, vect, e);
        vect := vect[..at] + [e] + vect[at..];
      }
    }

    method InsertMulti(e: T)
      requires Valid()
      modifies this
      ensures Valid() && vect == Place(o, old(vect), e)
    {
      var at := LowerBound(o, vect, o.key(e));
      PlaceSorted(o, vect, e);
      vect := vect[..at] + [e] + vect[at..];
    }

    method Erase(k: K) returns (n: nat)
      requires Valid()
      modifies this
      ensures Valid() && vect == EraseAll(o, old(vect), k) && n == |old(vect)| - |vect|
      ensures old(Strict(o, vect)) ==> Strict(o, vect)
    {
      var before := |vect|;
      UpperSplits(o, vect, k);
      EraseSorted(o, vect, k);
      var lo := LowerBound(o, vect, k);
      var hi := UpperBound(o, vect, k);
      vect := vect[..lo] + vect[hi..];
      n := before - |vect|;
    }
  }

  /** An existing entry keeps the spelling of its key and takes the new value. */
  function Assigned<K, V, C>(o: Order<(K, V), K, C>, s: seq<(K, V)>, k: K, v: V): seq<(K, V)> {
    match Find(o, s, k)
    case Some(i) => s[i := (s[i].0, v)]
    case None => Place(o, s, (k, v))
  }

  /** `operator[]` on a map inserts a default value, which the assignment replaces. */
  method Assign<K(!new), V, C>(m: FlatBase<(K, V), K, C>, k: K, v: V, default: V)
    requires m.Valid() && Strict(m.o, m.vect) && forall e :: m.o.key(e) == e.0
    modifies m
    ensures m.Valid() && Strict(m.o, m.vect) && m.vect == Assigned(m.o, old(m.vect), k, v)
  {
    var at, _ := m.Insert((k, default));
    m.vect := m.vect[at := (m.vect[at].0, v)];
  }

  // ------------------------------------------------- order is kept

  lemma PlaceSorted<T, K(!new), C>(o: Order<T, K, C>, s: seq<T>, e: T)
    requires StrictWeak(o) && Sorted(o, s)
    ensures Sorted(o, Place(o, s, e))
    ensures Strict(o, s) && Find(o, s, o.key(e)).None? ==> Strict(o, Place(o, s, e))
  {
    LowerSplits(o, s, o.key(e));
    var i, r := Lower(o, s, o.key(e)), Place(o, s, e);
    assert forall j :: 0 <= j < i ==> r[j] == s[j];
    assert forall j :: i < j < |r| ==> r[j] == s[j - 1];
    assert r[i] == e;
    forall j | 0 <= j < i ensures !o.lt(o.key(e), o.key(s[j])) {
      Asymmetric(o, o.key(s[j]), o.key(e));
    }
    if Strict(o, s) && Find(o, s, o.key(e)).None? {
      AllAfter(o, s, o.key(e));
    }
  }

  /** If a key has no element, everything that does not lie before it lies after it. */
  lemma AllAfter<T, K(!new), C>(o: Order<T, K, C>, s: seq<T>, k: K)
    requires StrictWeak(o) && Sorted(o, s) && Find(o, s, k).None?
    ensures forall j :: Lower(o, s, k) <= j < |s| ==> o.lt(k, o.key(s[j]))
  {
    LowerSplits(o, s, k);
    var i := Lower(o, s, k);
    forall j | i <= j < |s| ensures o.lt(k, o.key(s[j])) {
      if j > i {
        Later(o, k, o.key(s[i]), o.key(s[j]));
      }
    }
  }

  lemma EraseSorted<T, K(!new), C>(o: Order<T, K, C>, s: seq<T>, k: K)
    requires StrictWeak(o) && Sorted(o, s)
    ensures Sorted(o, EraseAll(o, s, k))
    ensures Strict(o, s) ==> Strict(o, EraseAll(o, s, k))
  {
    var lo, hi, r := Lower(o, s, k), Upper(o, s, k), EraseAll(o, s, k);
    UpperSplits(o, s, k);
    assert forall j :: 0 <= j < lo ==> r[j] == s[j];
    assert forall j :: lo <= j < |r| ==> r[j] == s[j + (hi - lo)];
  }

  // ------------------------------------------------- the abstract map

  /** The map a unique container stands for: from classes of keys to elements. */
  function Abstract<T, K, C>(o: Order<T, K, C>, s: seq<T>): map<C, T> {
    if s == [] then map[]
    else var e := s[|s| - 1]; Abstract(o, s[..|s| - 1])[o.canon(o.key(e)) := e]
  }

  lemma {:induction false} AbstractConcat<T, K, C>(o: Order<T, K, C>, a: seq<T>, b: seq<T>)
    ensures Abstract(o, a + b) == Abstract(o, a) + Abstract(o, b)
  {
    if b == [] {
      assert a + b == a;
    } else {
      assert (a + b)[..|a + b| - 1] == a + b[..|b| - 1];
      AbstractConcat(o, a, b[..|b| - 1]);
    }
  }

  lemma {:induction false} AbstractKeys<T, K, C>(o: Order<T, K, C>, s: seq<T>, c: C)
    ensures c in Abstract(o, s) <==> exists j :: 0 <= j < |s| && o.canon(o.key(s[j])) == c
  {
    if s != [] {
      var last := |s| - 1;
      AbstractKeys(o, s[..last], c);
      if c in Abstract(o, s[..last]) {
        var j :| 0 <= j < last && o.canon(o.key(s[..last][j])) == c;
        assert o.canon(o.key(s[j])) == c;
      }
      if j :| 0 <= j < |s| && o.canon(o.key(s[j])) == c {
        assert j < last ==> s[..last][j] == s[j];
      }
    }
  }

  lemma AbstractOne<T, K, C>(o: Order<T, K, C>, e: T)
    ensures Abstract(o, [e]) == map[o.canon(o.key(e)) := e]
  {
    assert [e][..0] == [];
  }

  /** A key of a strict container is found exactly if its class is in the map, and the
      element found is the one the map has. */
  lemma FindAgrees<T, K(!new), C>(o: Order<T, K, C>, s: seq<T>, k: K)
    requires StrictWeak(o) && Strict(o, s)
    ensures Find(o, s, k).Some? <==> o.canon(k) in Abstract(o, s)
    ensures Find(o, s, k).Some? ==> Abstract(o, s)[o.canon(k)] == s[Find(o, s, k).value]
  {
    StrictIsSorted(o, s);
    LowerSplits(o, s, k);
    AbstractKeys(o, s, o.canon(k));
    if Find(o, s, k).Some? {
      FoundAlone(o, s, k);
      SplitAt(o, s, Find(o, s, k).value);
    } else {
      AllAfter(o, s, k);
      NotIn(o, s, k);
    }
  }

  lemma FoundAlone<T, K(!new), C>(o: Order<T, K, C>, s: seq<T>, k: K)
    requires StrictWeak(o) && Strict(o, s) && Find(o, s, k).Some?
    ensures var i := Find(o, s, k).value;
            o.canon(o.key(s[i])) == o.canon(k) && o.canon(o.key(s[i])) !in Abstract(o, s[i + 1..])
  {
    StrictIsSorted(o, s);
    LowerSplits(o, s, k);
    var i := Lower(o, s, k);
    Asymmetric(o, k, o.key(s[i]));
    NotIn(o, s[i + 1..], o.key(s[i]));
  }

  lemma SplitAt<T, K, C>(o: Order<T, K, C>, s: seq<T>, i: nat)
    requires i < |s|
    ensures Abstract(o, s)
            == Abstract(o, s[..i]) + map[o.canon(o.key(s[i])) := s[i]] + Abstract(o, s[i + 1..])
  {
    assert s == s[..i] + [s[i]] + s[i + 1..];
    AbstractThree(o, s[..i], s[i], s[i + 1..]);
  }

  lemma NotIn<T, K(!new), C>(o: Order<T, K, C>, s: seq<T>, k: K)
    requires StrictWeak(o)
    requires forall j :: 0 <= j < |s| ==> o.lt(k, o.key(s[j])) || o.lt(o.key(s[j]), k)
    ensures o.canon(k) !in Abstract(o, s)
  {
    forall j | 0 <= j < |s| ensures o.canon(o.key(s[j])) != o.canon(k) {
      Asymmetric(o, k, o.key(s[j]));
    }
    AbstractKeys(o, s, o.canon(k));
  }

  /** Insertion into a unique container adds to the map unless the class is there. */
  lemma InsertAgrees<T, K(!new), C>(o: Order<T, K, C>, s: seq<T>, e: T)
    requires StrictWeak(o) && Strict(o, s)
    ensures Strict(o, InsertSingle(o, s, e))
    ensures var c := o.canon(o.key(e));
            Abstract(o, InsertSingle(o, s, e))
            == if c in Abstract(o, s) then Abstract(o, s) else Abstract(o, s)[c := e]
  {
    FindAgrees(o, s, o.key(e));
    if Find(o, s, o.key(e)).None? {
      InsertNew(o, s, e);
    }
  }

  lemma InsertNew<T, K(!new), C>(o: Order<T, K, C>, s: seq<T>, e: T)
    requires StrictWeak(o) && Strict(o, s) && Find(o, s, o.key(e)).None?
    requires o.canon(o.key(e)) !in Abstract(o, s)
    ensures Strict(o, Place(o, s, e))
    ensures Abstract(o, Place(o, s, e)) == Abstract(o, s)[o.canon(o.key(e)) := e]
  {
    StrictIsSorted(o, s);
    PlaceSorted(o, s, e);
    PlaceAbstract(o, s, e);
  }

  lemma PlaceAbstract<T, K, C>(o: Order<T, K, C>, s: seq<T>, e: T)
    requires o.canon(o.key(e)) !in Abstract(o, s)
    ensures Abstract(o, Place(o, s, e)) == Abstract(o, s)[o.canon(o.key(e)) := e]
  {
    hide Abstract;
    var i := Lower(o, s, o.key(e));
    AbstractThree(o, s[..i], e, s[i..]);
    assert s == s[..i] + s[i..];
    AbstractConcat(o, s[..i], s[i..]);
    AddInMiddle(Abstract(o, s[..i]), Abstract(o, s[i..]), o.canon(o.key(e)), e);
  }

  lemma AbstractThree<T, K, C>(o: Order<T, K, C>, a: seq<T>, e: T, b: seq<T>)
    ensures Abstract(o, a + [e] + b) == Abstract(o, a) + map[o.canon(o.key(e)) := e] + Abstract(o, b)
  {
    AbstractConcat(o, a + [e], b);
    AbstractConcat(o, a, [e]);
    AbstractOne(o, e);
  }

  lemma AddInMiddle<T, C>(m: map<C, T>, n: map<C, T>, c: C, e: T)
    requires c !in m + n
    ensures m + map[c := e] + n == (m + n)[c := e]
    ensures (m + map[c := e] + n) - {c} == m + n
  {
  }

  lemma EraseAgrees<T, K(!new), C>(o: Order<T, K, C>, s: seq<T>, k: K)
    requires StrictWeak(o) && Strict(o, s)
    ensures Strict(o, EraseAll(o, s, k))
    ensures Abstract(o, EraseAll(o, s, k)) == Abstract(o, s) - {o.canon(k)}
    ensures |s| - |EraseAll(o, s, k)| == if o.canon(k) in Abstract(o, s) then 1 else 0
  {
    StrictIsSorted(o, s);
    EraseSorted(o, s, k);
    LowerSplits(o, s, k);
    UpperSplits(o, s, k);
    EraseClass(o, s, k, Lower(o, s, k), Upper(o, s, k));
  }

  lemma EraseClass<T, K(!new), C>(o: Order<T, K, C>, s: seq<T>, k: K, lo: nat, hi: nat)
    requires StrictWeak(o) && Strict(o, s) && Splits(o, s, k, lo) && SplitsAfter(o, s, k, hi) && lo <= hi
    ensures Abstract(o, s[..lo] + s[hi..]) == Abstract(o, s) - {o.canon(k)}
    ensures hi - lo == if o.canon(k) in Abstract(o, s) then 1 else 0
  {
    if lo < hi {
      OneOfAKind(o, s, k, lo, hi);
      NotIn(o, s[..lo], k);
      NotIn(o, s[hi..], k);
      EraseOne(o, s, lo);
      SplitAt(o, s, lo);
    } else {
      assert s[..lo] + s[lo..] == s;
      NotIn(o, s, k);
    }
  }

  /** Between the two bounds lies the class of the key. */
  lemma Between<T, K(!new), C>(o: Order<T, K, C>, s: seq<T>, k: K, lo: nat, hi: nat)
    requires StrictWeak(o) && Splits(o, s, k, lo) && SplitsAfter(o, s, k, hi)
    ensures forall j :: 0 <= j < |s| ==> (lo <= j < hi <==> o.canon(o.key(s[j])) == o.canon(k))
  {
    forall j | 0 <= j < |s| ensures lo <= j < hi <==> o.canon(o.key(s[j])) == o.canon(k) {
      Asymmetric(o, k, o.key(s[j]));
    }
  }

  lemma OneOfAKind<T, K(!new), C>(o: Order<T, K, C>, s: seq<T>, k: K, lo: nat, hi: nat)
    requires StrictWeak(o) && Strict(o, s) && Splits(o, s, k, lo) && SplitsAfter(o, s, k, hi) && lo < hi
    ensures hi == lo + 1 && o.canon(o.key(s[lo])) == o.canon(k)
  {
    Between(o, s, k, lo, hi);
    if hi > lo + 1 {
      Asymmetric(o, o.key(s[lo]), o.key(s[lo + 1]));
    }
  }

  lemma EraseOne<T, K, C>(o: Order<T, K, C>, s: seq<T>, i: nat)
    requires i < |s|
    requires var c := o.canon(o.key(s[i])); c !in Abstract(o, s[..i]) && c !in Abstract(o, s[i + 1..])
    ensures Abstract(o, s[..i] + s[i + 1..]) == Abstract(o, s) - {o.canon(o.key(s[i]))}
  {
    SplitAt(o, s, i);
    AbstractConcat(o, s[..i], s[i + 1..]);
    AddInMiddle(Abstract(o, s[..i]), Abstract(o, s[i + 1..]), o.canon(o.key(s[i])), s[i]);
  }

  /** Assignment gives the class the new value under the spelling of its first key. */
  lemma AssignedAgrees<K(!new), V, C>(o: Order<(K, V), K, C>, s: seq<(K, V)>, k: K, v: V)
    requires StrictWeak(o) && Strict(o, s) && forall e :: o.key(e) == e.0
    ensures Strict(o, Assigned(o, s, k, v))
    ensures var c, m := o.canon(k), Abstract(o, s);
            Abstract(o, Assigned(o, s, k, v)) == m[c := (if c in m then m[c].0 else k, v)]
  {
    if Find(o, s, k).None? {
      AssignNew(o, s, k, v);
    } else {
      AssignOld(o, s, k, v);
    }
  }

  lemma AssignNew<K(!new), V, C>(o: Order<(K, V), K, C>, s: seq<(K, V)>, k: K, v: V)
    requires StrictWeak(o) && Strict(o, s) && Find(o, s, k).None? && forall e :: o.key(e) == e.0
    ensures Strict(o, Place(o, s, (k, v))) && o.canon(k) !in Abstract(o, s)
    ensures Abstract(o, Place(o, s, (k, v))) == Abstract(o, s)[o.canon(k) := (k, v)]
  {
    FindAgrees(o, s, k);
    InsertNew(o, s, (k, v));
  }

  lemma AssignOld<K(!new), V, C>(o: Order<(K, V), K, C>, s: seq<(K, V)>, k: K, v: V)
    requires StrictWeak(o) && Strict(o, s) && Find(o, s, k).Some? && forall e :: o.key(e) == e.0
    ensures var i := Find(o, s, k).value;
            && Strict(o, s[i := (s[i].0, v)]) && o.canon(k) in Abstract(o, s)
            && Abstract(o, s[i := (s[i].0, v)]) == Abstract(o, s)[o.canon(k) := (Abstract(o, s)[o.canon(k)].0, v)]
  {
    FindAgrees(o, s, k);
    FoundAlone(o, s, k);
    ReplaceAt(o, s, Find(o, s, k).value, v);
    ReplaceStrict(o, s, Find(o, s, k).value, v);
  }

  lemma ReplaceStrict<K, V, C>(o: Order<(K, V), K, C>, s: seq<(K, V)>, i: nat, v: V)
    requires i < |s| && Strict(o, s) && forall e :: o.key(e) == e.0
    ensures Strict(o, s[i := (s[i].0, v)])
  {
    var r := s[i := (s[i].0, v)];
    assert forall j :: 0 <= j < |s| ==> o.key(r[j]) == o.key(s[j]);
  }

  lemma ReplaceAt<K, V, C>(o: Order<(K, V), K, C>, s: seq<(K, V)>, i: nat, v: V)
    requires i < |s| && o.canon(s[i].0) !in Abstract(o, s[i + 1..]) && forall e :: o.key(e) == e.0
    ensures Abstract(o, s[i := (s[i].0, v)]) == Abstract(o, s)[o.canon(s[i].0) := (s[i].0, v)]
  {
    var r := s[i := (s[i].0, v)];
    assert r[..i] == s[..i] && r[i + 1..] == s[i + 1..];
    SplitAt(o, s, i);
    SplitAt(o, r, i);
    ReplaceInMiddle(Abstract(o, s[..i]), Abstract(o, s[i + 1..]), o.canon(s[i].0), s[i], r[i]);
  }

  lemma ReplaceInMiddle<T, C>(m: map<C, T>, n: map<C, T>, c: C, d: T, e: T)
    requires c !in n
    ensures m + map[c := e] + n == (m + map[c := d] + n)[c := e]
  {
  }

  // ------------------------------------------------- the abstract multiset

  /** Insertion into a multi container adds one element, in front of its equals. */
  lemma InsertMultiAgrees<T, K(!new), C>(o: Order<T, K, C>, s: seq<T>, e: T)
    requires StrictWeak(o) && Sorted(o, s)
    ensures Sorted(o, Place(o, s, e)) && multiset(Place(o, s, e)) == multiset(s) + multiset{e}
  {
    PlaceSorted(o, s, e);
    OneMore(s, Lower(o, s, o.key(e)), e);
  }

  lemma OneMore<T>(s: seq<T>, i: nat, e: T)
    requires i <= |s|
    ensures multiset(s[..i] + [e] + s[i..]) == multiset(s) + multiset{e}
  {
    assert s == s[..i] + s[i..];
  }

  /** Erasing a key cuts out one stretch, which holds exactly the elements of its class. */
  lemma EraseMultiAgrees<T, K(!new), C>(o: Order<T, K, C>, s: seq<T>, k: K)
    requires StrictWeak(o) && Sorted(o, s)
    ensures var lo, hi := Lower(o, s, k), Upper(o, s, k);
            && lo <= hi && EraseAll(o, s, k) == s[..lo] + s[hi..]
            && forall j :: 0 <= j < |s| ==> (lo <= j < hi <==> o.canon(o.key(s[j])) == o.canon(k))
  {
    LowerSplits(o, s, k);
    UpperSplits(o, s, k);
    Between(o, s, k, Lower(o, s, k), Upper(o, s, k));
  }

  // ------------------------------------------------- whole runs

  datatype Op<K, V> = Insert(key: K, value: V) | Assign(key: K, value: V) | Erase(key: K)

  function Apply<K(!new), V, C>(o: Order<(K, V), K, C>, s: seq<(K, V)>, op: Op<K, V>): seq<(K, V)> {
    match op
    case Insert(k, v) => InsertSingle(o, s, (k, v))
    case Assign(k, v) => Assigned(o, s, k, v)
    case Erase(k) => EraseAll(o, s, k)
  }

  /** What an operation means on a map of classes: the first spelling of a key stays,
      insert keeps an old value, assignment replaces it. */
  function Meaning<K, V, C>(canon: K -> C, m: map<C, (K, V)>, op: Op<K, V>): map<C, (K, V)> {
    var c := canon(op.key);
    match op
    case Insert(k, v) => if c in m then m else m[c := (k, v)]
    case Assign(k, v) => m[c := (if c in m then m[c].0 else k, v)]
    case Erase(_) => m - {c}
  }

  function Run<K(!new), V, C>(o: Order<(K, V), K, C>, ops: seq<Op<K, V>>): seq<(K, V)> {
    if ops == [] then [] else Apply(o, Run(o, ops[..|ops| - 1]), ops[|ops| - 1])
  }

  function Meant<K, V, C>(canon: K -> C, ops: seq<Op<K, V>>): map<C, (K, V)> {
    if ops == [] then map[] else Meaning(canon, Meant(canon, ops[..|ops| - 1]), ops[|ops| - 1])
  }

  /** After any sequence of operations the vector is strictly sorted and stands for the
      map that the operations mean; find answers from that map. */
  lemma {:induction false} RunAgrees<K(!new), V, C>(o: Order<(K, V), K, C>, ops: seq<Op<K, V>>, k: K)
    requires StrictWeak(o) && forall e :: o.key(e) == e.0
    ensures Strict(o, Run(o, ops)) && Abstract(o, Run(o, ops)) == Meant(o.canon, ops)
    ensures match Find(o, Run(o, ops), k)
            case None => o.canon(k) !in Meant(o.canon, ops)
            case Some(i) => o.canon(k) in Meant(o.canon, ops) && Run(o, ops)[i] == Meant(o.canon, ops)[o.canon(k)]
  {
    if ops != [] {
      var s, op := Run(o, ops[..|ops| - 1]), ops[|ops| - 1];
      RunAgrees(o, ops[..|ops| - 1], k);
      match op {
        case Insert(key, v) => InsertAgrees(o, s, (key, v));
        case Assign(key, v) => AssignedAgrees(o, s, key, v);
        case Erase(key) => EraseAgrees(o, s, key);
      }
    }
    FindAgrees(o, Run(o, ops), k);
  }

  /** A run of assignments leaves each class with the last value assigned to it. */
  lemma {:induction false} LastAssignmentWins<K, V, C>(canon: K -> C, ops: seq<Op<K, V>>, j: nat)
    requires j < |ops| && forall i :: 0 <= i < |ops| ==> ops[i].Assign?
    requires forall i :: j < i < |ops| ==> canon(ops[i].key) != canon(ops[j].key)
    ensures canon(ops[j].key) in Meant(canon, ops) && Meant(canon, ops)[canon(ops[j].key)].1 == ops[j].value
    decreases |ops|
  {
    var last := |ops| - 1;
    if j < last {
      assert ops[..last][j] == ops[j];
      LastAssignmentWins(canon, ops[..last], j);
    }
  }

  // ------------------------------------------------- whole runs of a multi container

  datatype MultiOp<T, K> = Adding(e: T) | Erasing(key: K)

  function RunMulti<T, K(!new), C>(o: Order<T, K, C>, ops: seq<MultiOp<T, K>>): seq<T> {
    if ops == [] then [] else
    var s := RunMulti(o, ops[..|ops| - 1]);
    match ops[|ops| - 1]
    case Adding(e) => Place(o, s, e)
    case Erasing(k) => EraseAll(o, s, k)
  }

  /** How often an element is in the multiset that the operations mean: as often as it was
      added since its class was last erased. */
  ghost function Copies<T, K, C>(o: Order<T, K, C>, ops: seq<MultiOp<T, K>>, e: T): nat {
    if ops == [] then 0 else
    var n := Copies(o, ops[..|ops| - 1], e);
    match ops[|ops| - 1]
    case Adding(x) => if x == e then n + 1 else n
    case Erasing(k) => if o.canon(k) == o.canon(o.key(e)) then 0 else n
  }

  /** The same for all elements of a class. */
  ghost function ClassSize<T, K, C>(o: Order<T, K, C>, ops: seq<MultiOp<T, K>>, c: C): nat {
    if ops == [] then 0 else
    var n := ClassSize(o, ops[..|ops| - 1], c);
    match ops[|ops| - 1]
    case Adding(x) => if o.canon(o.key(x)) == c then n + 1 else n
    case Erasing(k) => if o.canon(k) == c then 0 else n
  }

  ghost predicate Of<T, K, C>(o: Order<T, K, C>, e: T, c: C) {
    o.canon(o.key(e)) == c
  }

  /** How many elements of a vector are in a class. */
  ghost function InClass<T, K, C>(o: Order<T, K, C>, s: seq<T>, c: C): nat {
    if s == [] then 0 else InClass(o, s[..|s| - 1], c) + if Of(o, s[|s| - 1], c) then 1 else 0
  }

  lemma {:induction false} InClassConcat<T, K, C>(o: Order<T, K, C>, a: seq<T>, b: seq<T>, c: C)
    ensures InClass(o, a + b, c) == InClass(o, a, c) + InClass(o, b, c)
  {
    if b == [] {
      assert a + b == a;
    } else {
      assert (a + b)[..|a + b| - 1] == a + b[..|b| - 1];
      InClassConcat(o, a, b[..|b| - 1], c);
    }
  }

  lemma {:induction false} AllOrNone<T, K, C>(o: Order<T, K, C>, s: seq<T>, c: C, all: bool)
    requires forall j :: 0 <= j < |s| ==> (Of(o, s[j], c) <==> all)
    ensures InClass(o, s, c) == if all then |s| else 0
  {
    if s != [] {
      AllOrNone(o, s[..|s| - 1], c, all);
    }
  }

  lemma InClassAround<T, K, C>(o: Order<T, K, C>, s: seq<T>, lo: nat, hi: nat, c: C)
    requires lo <= hi <= |s|
    ensures InClass(o, s, c) == InClass(o, s[..lo] + s[hi..], c) + InClass(o, s[lo..hi], c)
  {
    assert s == s[..lo] + (s[lo..hi] + s[hi..]);
    InClassConcat(o, s[..lo], s[lo..hi] + s[hi..], c);
    InClassConcat(o, s[lo..hi], s[hi..], c);
    InClassConcat(o, s[..lo], s[hi..], c);
  }

  /** In a sorted vector the two bounds enclose exactly a class. */
  lemma BoundsCount<T, K(!new), C>(o: Order<T, K, C>, s: seq<T>, k: K)
    requires StrictWeak(o) && Sorted(o, s)
    ensures var lo, hi := Lower(o, s, k), Upper(o, s, k);
            && lo <= hi && InClass(o, s, o.canon(k)) == hi - lo
            && (forall j :: lo <= j < hi ==> Of(o, s[j], o.canon(k)))
            && forall j :: 0 <= j < |s| && !(lo <= j < hi) ==> !Of(o, s[j], o.canon(k))
  {
    EraseMultiAgrees(o, s, k);
    var lo, hi, c := Lower(o, s, k), Upper(o, s, k), o.canon(k);
    InClassAround(o, s, lo, hi, c);
    forall j | 0 <= j < hi - lo ensures Of(o, s[lo..hi][j], c) {
      assert s[lo..hi][j] == s[lo + j];
    }
    AllOrNone(o, s[lo..hi], c, true);
    AllOrNone(o, s[..lo] + s[hi..], c, false);
  }

  lemma PlaceCounts<T, K(!new), C>(o: Order<T, K, C>, s: seq<T>, e: T, c: C)
    ensures InClass(o, Place(o, s, e), c) == InClass(o, s, c) + if Of(o, e, c) then 1 else 0
  {
    var i := Lower(o, s, o.key(e));
    assert s == s[..i] + s[i..];
    assert [e][..0] == [] && [e][|[e]| - 1] == e;
    InClassConcat(o, s[..i], s[i..], c);
    InClassConcat(o, s[..i] + [e], s[i..], c);
    InClassConcat(o, s[..i], [e], c);
  }

  /** Erasing takes all elements of the class, and none of any other. */
  lemma EraseCounts<T, K(!new), C>(o: Order<T, K, C>, s: seq<T>, k: K, c: C)
    requires StrictWeak(o) && Sorted(o, s)
    ensures InClass(o, EraseAll(o, s, k), c) == if c == o.canon(k) then 0 else InClass(o, s, c)
  {
    BoundsCount(o, s, k);
    var lo, hi := Lower(o, s, k), Upper(o, s, k);
    InClassAround(o, s, lo, hi, c);
    forall j | 0 <= j < hi - lo ensures Of(o, s[lo..hi][j], c) <==> c == o.canon(k) {
      assert s[lo..hi][j] == s[lo + j];
    }
    AllOrNone(o, s[lo..hi], c, c == o.canon(k));
  }

  lemma EraseCopies<T, K(!new), C>(o: Order<T, K, C>, s: seq<T>, k: K, e: T)
    requires StrictWeak(o) && Sorted(o, s)
    ensures multiset(EraseAll(o, s, k))[e] == if o.canon(k) == o.canon(o.key(e)) then 0 else multiset(s)[e]
  {
    BoundsCount(o, s, k);
    var lo, hi, c := Lower(o, s, k), Upper(o, s, k), o.canon(k);
    CopiesAround(s, lo, hi, e);
    if Of(o, e, c) {
      forall j | 0 <= j < |EraseAll(o, s, k)| ensures EraseAll(o, s, k)[j] != e {
        assert !Of(o, s[if j < lo then j else j + (hi - lo)], c);
      }
      NoCopies(EraseAll(o, s, k), e);
    } else {
      forall j | 0 <= j < hi - lo ensures s[lo..hi][j] != e {
        assert Of(o, s[lo + j], c);
      }
      NoCopies(s[lo..hi], e);
    }
  }

  lemma CopiesAround<T>(s: seq<T>, lo: nat, hi: nat, e: T)
    requires lo <= hi <= |s|
    ensures multiset(s)[e] == multiset(s[..lo] + s[hi..])[e] + multiset(s[lo..hi])[e]
  {
    assert s == s[..lo] + s[lo..hi] + s[hi..];
  }

  lemma NoCopies<T>(s: seq<T>, e: T)
    requires forall j :: 0 <= j < |s| ==> s[j] != e
    ensures multiset(s)[e] == 0
  {
  }

  /** After any sequence of additions and erasures the vector is sorted and is the multiset
      that the operations mean; `count` answers with the size of a class in it, and `find`
      with an element of the class exactly if there is one. */
  lemma {:induction false} MultiRunAgrees<T, K(!new), C>(o: Order<T, K, C>, ops: seq<MultiOp<T, K>>, e: T, k: K)
    requires StrictWeak(o)
    ensures var s := RunMulti(o, ops);
            && Sorted(o, s) && multiset(s)[e] == Copies(o, ops, e)
            && Upper(o, s, k) - Lower(o, s, k) == ClassSize(o, ops, o.canon(k))
            && match Find(o, s, k)
               case None => ClassSize(o, ops, o.canon(k)) == 0
               case Some(i) => ClassSize(o, ops, o.canon(k)) > 0 && Of(o, s[i], o.canon(k))
  {
    var s := RunMulti(o, ops);
    MultiRunCounts(o, ops, e, o.canon(k));
    BoundsCount(o, s, k);
    LowerSplits(o, s, k);
    UpperSplits(o, s, k);
  }

  lemma {:induction false} MultiRunCounts<T, K(!new), C>(o: Order<T, K, C>, ops: seq<MultiOp<T, K>>, e: T, c: C)
    requires StrictWeak(o)
    ensures var s := RunMulti(o, ops);
            Sorted(o, s) && multiset(s)[e] == Copies(o, ops, e) && InClass(o, s, c) == ClassSize(o, ops, c)
  {
    if ops != [] {
      var s := RunMulti(o, ops[..|ops| - 1]);
      MultiRunCounts(o, ops[..|ops| - 1], e, c);
      match ops[|ops| - 1] {
        case Adding(x) =>
          InsertMultiAgrees(o, s, x);
          PlaceCounts(o, s, x, c);
        case Erasing(k) =>
          EraseSorted(o, s, k);
          EraseCounts(o, s, k, c);
          EraseCopies(o, s, k, e);
      }
    }
  }

  // ------------------------------------------------- the case-insensitive instance

  /** The order of the containers keyed by case-insensitive strings. */
  function Insensitive<V>(m: seq<Byte>): Order<(Text, V), Text, Text>
    requires |m| == 256
  {
    Order((e: (Text, V)) => e.0, (a, b) => Lex(FoldWith(m)(a), FoldWith(m)(b)), FoldWith(m))
  }

  function FoldWith(m: seq<Byte>): Text -> Text
    requires |m| == 256
  {
    s => if |m| == 256 then Fold(m, s) else s
  }

  lemma InsensitiveIsStrictWeak<V>(m: seq<Byte>)
    requires |m| == 256
    ensures StrictWeak(Insensitive<V>(m)) && forall e: (Text, V) :: Insensitive<V>(m).key(e) == e.0
  {
    var o := Insensitive<V>(m);
    forall a: Text, b: Text, c: Text
      ensures !o.lt(a, a)
      ensures o.lt(a, b) && o.lt(b, c) ==> o.lt(a, c)
      ensures !o.lt(a, b) && !o.lt(b, a) <==> o.canon(a) == o.canon(b)
    {
      SwoIsStrictWeak(m, a, b, c);
    }
  }
}
