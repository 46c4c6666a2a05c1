/**
  The ordered lists of entries that fall due: the expires and the futures, which keep
  the same kind of list in the same way.

  The list is a multimap from time to entry.  An entry is about a target: a key of a
  database and its select.  Adding replaces the entry of the target, but finds it through
  a cast to int and a test for a positive number; where that fails is stated exactly.
 */
module Schedule {
  import opened CInt

  datatype Target = Target(database: nat, key: seq<int>, select: nat)

  datatype Entry = Entry(target: Target, schedule: int, added: int, secs: int, epoch: bool)

  ghost predicate Sorted(list: seq<Entry>) {
    forall i, j :: 0 <= i < j < |list| ==> list[i].schedule <= list[j].schedule
  }

  /** At most one entry for each target. */
  ghost predicate Unique(list: seq<Entry>) {
    forall i, j :: 0 <= i < j < |list| ==> list[i].target != list[j].target
  }

  // ------------------------------------------------- the operations on the list

  /** The place of the first entry of a target, or the length. */
  function Find(list: seq<Entry>, t: Target): (i: nat)
    ensures i <= |list| && (i < |list| ==> list[i].target == t)
    ensures forall j :: 0 <= j < i ==> list[j].target != t
  {
    if list == [] || list[0].target == t then 0
    else
      var rest := Find(list[1..], t);
      assert forall j :: 1 <= j < 1 + rest ==> list[j] == list[1..][j - 1];
      1 + rest
  }

  function Removed(list: seq<Entry>, t: Target): seq<Entry> {
    var i := Find(list, t);
    if i < |list| then list[..i] + list[i + 1..] else list
  }

  /** What GetTIME answers. */
  function Time(list: seq<Entry>, t: Target): int {
    var i := Find(list, t);
    if i < |list| then AsInt(list[i].schedule) else -1
  }

  /** How many entries are not later than `time`: where a new entry of that time goes. */
  function Upper(list: seq<Entry>, time: int): (i: nat)
    ensures i <= |list|
    ensures forall j :: 0 <= j < i ==> list[j].schedule <= time
    ensures i < |list| ==> list[i].schedule > time
  {
    if list == [] || list[0].schedule > time then 0
    else
      var rest := Upper(list[1..], time);
      assert forall j :: 1 <= j < 1 + rest ==> list[j] == list[1..][j - 1];
      1 + rest
  }

  function Inserted(list: seq<Entry>, e: Entry): seq<Entry> {
    var i := Upper(list, e.schedule);
    list[..i] + [e] + list[i..]
  }

  function NewEntry(t: Target, schedule: Int32, epoch: bool, now: int): Entry {
    Entry(t, if epoch then schedule else now + schedule, now, schedule, epoch)
  }

  function Added(list: seq<Entry>, t: Target, schedule: Int32, epoch: bool, now: int): seq<Entry> {
    if schedule < 0 then list
    else Inserted(if Time(list, t) > 0 then Removed(list, t) else list, NewEntry(t, schedule, epoch, now))
  }

  /** The entries a full scan would find due. */
  function Due(list: seq<Entry>, time: int): seq<Entry> {
    if list == [] then []
    else (if list[0].schedule < time then [list[0]] else []) + Due(list[1..], time)
  }

  class Manager {
    var list: seq<Entry>

    ghost predicate Valid()
      reads this
    {
      Sorted(list)
    }

    constructor ()
      ensures Valid() && list == []
    {
      list := [];
    }

    method Delete(t: Target) returns (found: bool)
      requires Valid()
      modifies this
      ensures Valid() && list == Removed(old(list), t) && (found <==> exists i :: 0 <= i < |old(list)| && old(list)[i].target == t)
    {
      if |list| == 0 {
        return false;
      }
      var it := 0;
      while it < |list|
        invariant it <= |list| && list == old(list)
        invariant forall j :: 0 <= j < it ==> list[j].target != t
      {
        if list[it].target.key != t.key {
          it := it + 1;
          continue;
        }
        if list[it].target.select != t.select {
          it := it + 1;
          continue;
        }
        if list[it].target.database != t.database {
          it := it + 1;
          continue;
        }
        assert Find(list, t) == it;
        RemovedSorted(list, t);
        list := list[..it] + list[it + 1..];
        return true;
      }
      return false;
    }

    method GetTime(t: Target) returns (time: int)
      ensures time == Time(list, t)
    {
      var it := 0;
      while it < |list|
        invariant it <= |list| && forall j :: 0 <= j < it ==> list[j].target != t
      {
        if list[it].target.key == t.key && list[it].target.select == t.select && list[it].target.database == t.database {
          assert Find(list, t) == it;
          return AsInt(list[it].schedule);
        }
        it := it + 1;
      }
      return -1;
    }

    /** `now` is the time of the main loop. The answer is the new time, as an int. */
    method Add(t: Target, schedule: Int32, epoch: bool, now: int) returns (r: int)
      requires Valid()
      modifies this
      ensures Valid() && list == Added(old(list), t, schedule, epoch, now)
      ensures r == if schedule < 0 then -1 else AsInt(NewEntry(t, schedule, epoch, now).schedule)
    {
      if schedule < 0 {
        return -1;
      }
      var existing := GetTime(t);
      if existing > 0 {
        var _ := Delete(t);
      }
      var e := NewEntry(t, schedule, epoch, now);
      InsertedSorted(list, e);
      list := Inserted(list, e);
      r := AsInt(e.schedule);
    }

    /** The walk stops at the first entry that is not due, and has found them all. */
    method Flush(time: int) returns (dispatched: seq<Entry>)
      requires Valid()
      ensures dispatched == Due(list, time)
    {
      dispatched := [];
      var it := 0;
      assert list[0..] == list;
      while it < |list|
        invariant it <= |list| && dispatched + Due(list[it..], time) == Due(list, time)
      {
        if list[it].schedule >= time {
          NoneDue(list[it..], time);
          break;
        }
        assert list[it..][1..] == list[it + 1..];
        assert dispatched + ([list[it]] + Due(list[it + 1..], time)) == dispatched + [list[it]] + Due(list[it + 1..], time);
        dispatched := dispatched + [list[it]];
        it := it + 1;
      }
    }
  }

  lemma {:induction false} NoneDue(list: seq<Entry>, time: int)
    requires Sorted(list) && (list == [] || list[0].schedule >= time)
    ensures Due(list, time) == []
  {
    if list != [] {
      assert list[1..] == [] || list[1..][0] == list[1];
      NoneDue(list[1..], time);
    }
  }

  /** What is due is what lies before the time, all of it, in the order of the list. */
  lemma {:induction false} DueExactly(list: seq<Entry>, time: int)
    requires Sorted(list)
    ensures var n := |Due(list, time)|;
            && n <= |list| && Due(list, time) == list[..n]
            && forall i :: 0 <= i < |list| ==> (i < n <==> list[i].schedule < time)
  {
    if list != [] {
      if list[0].schedule < time {
        DueExactly(list[1..], time);
        var n := |Due(list, time)|;
        assert list[..n] == [list[0]] + list[1..][..n - 1];
        assert forall i :: 1 <= i < |list| ==> list[i] == list[1..][i - 1];
      } else {
        NoneDue(list, time);
      }
    }
  }

  lemma RemovedSorted(list: seq<Entry>, t: Target)
    requires Sorted(list)
    ensures Sorted(Removed(list, t))
  {
  }

  lemma InsertedSorted(list: seq<Entry>, e: Entry)
    requires Sorted(list)
    ensures Sorted(Inserted(list, e))
  {
    var r := Inserted(list, e);
    forall i, j | 0 <= i < j < |r| ensures r[i].schedule <= r[j].schedule {
      InsertedAt(list, e, i);
      InsertedAt(list, e, j);
    }
  }

  // ------------------------------------------------- one entry per target

  ghost predicate Mentions(list: seq<Entry>, t: Target) {
    exists i :: 0 <= i < |list| && list[i].target == t
  }

  lemma RemovedUnique(list: seq<Entry>, t: Target)
    requires Unique(list)
    ensures Unique(Removed(list, t)) && !Mentions(Removed(list, t), t)
  {
  }

  lemma InsertedUnique(list: seq<Entry>, e: Entry)
    requires Unique(list)
    ensures Unique(Inserted(list, e)) <==> !Mentions(list, e.target)
  {
    var i, r := Upper(list, e.schedule), Inserted(list, e);
    if j :| 0 <= j < |list| && list[j].target == e.target {
      InsertedAt(list, e, i);
      InsertedAt(list, e, if j < i then j else j + 1);
    } else {
      forall p, q | 0 <= p < q < |r| ensures r[p].target != r[q].target {
        InsertedAt(list, e, p);
        InsertedAt(list, e, q);
      }
    }
  }

  /** Adding keeps one entry per target exactly if it adds nothing, or the target has no
      entry yet, or the time of its entry is positive as an int. */
  lemma AddKeepsUniqueExactly(list: seq<Entry>, t: Target, schedule: Int32, epoch: bool, now: int)
    requires Unique(list)
    ensures Unique(Added(list, t, schedule, epoch, now))
            <==> schedule < 0 || Find(list, t) == |list| || AsInt(list[Find(list, t)].schedule) > 0
  {
    if schedule >= 0 {
      var e := NewEntry(t, schedule, epoch, now);
      if Time(list, t) > 0 {
        RemovedUnique(list, t);
        InsertedUnique(Removed(list, t), e);
      } else {
        InsertedUnique(list, e);
        assert Mentions(list, t) <==> Find(list, t) < |list|;
      }
    }
  }

  /** A target that is added twice to an empty list has one entry exactly if its first time
      was positive as an int. */
  lemma AddedTwice(t: Target, first: Int32, epoch: bool, before: int, second: Int32, again: bool, now: int)
    requires first >= 0 && second >= 0
    ensures Unique(Added(Added([], t, first, epoch, before), t, second, again, now))
            <==> if epoch then first > 0 else AsInt(before + first) > 0
  {
    var list := Added([], t, first, epoch, before);
    assert list == [NewEntry(t, first, epoch, before)];
    assert Find(list, t) == 0;
    AddKeepsUniqueExactly(list, t, second, again, now);
  }

  /** So an entry for the beginning of the epoch is not replaced, nor is one that a relative
      time puts after January 2038. */
  lemma NotReplaced(t: Target, first: Int32, epoch: bool, before: int, second: Int32, again: bool, now: int)
    requires first >= 0 && second >= 0
    requires if epoch then first == 0 else before + first == INT_MAX + 1
    ensures !Unique(Added(Added([], t, first, epoch, before), t, second, again, now))
  {
    AddedTwice(t, first, epoch, before, second, again, now);
  }

  // ------------------------------------------------- whole runs

  /** The list stands for a map from targets to times. */
  ghost predicate Stands(list: seq<Entry>, m: map<Target, int>) {
    && Unique(list) && Sorted(list)
    && (forall i :: 0 <= i < |list| ==> list[i].target in m && m[list[i].target] == list[i].schedule)
    && (forall t :: t in m ==> Mentions(list, t))
  }

  /** Times that an int can hold and that are positive. */
  ghost predicate Tellable(list: seq<Entry>) {
    forall i :: 0 <= i < |list| ==> 0 < list[i].schedule <= INT_MAX
  }

  datatype Op = Add(t: Target, schedule: Int32, epoch: bool, now: int) | Delete(t: Target)

  function Apply(list: seq<Entry>, op: Op): seq<Entry> {
    match op
    case Add(t, schedule, epoch, now) => Added(list, t, schedule, epoch, now)
    case Delete(t) => Removed(list, t)
  }

  /** What an operation means: adding sets the time of a target, deleting forgets it. */
  function Meaning(m: map<Target, int>, op: Op): map<Target, int> {
    match op
    case Add(t, schedule, epoch, now) =>
      if schedule < 0 then m else m[t := if epoch then schedule else now + schedule]
    case Delete(t) => m - {t}
  }

  function Run(ops: seq<Op>): seq<Entry> {
    if ops == [] then [] else Apply(Run(ops[..|ops| - 1]), ops[|ops| - 1])
  }

  function Meant(ops: seq<Op>): map<Target, int> {
    if ops == [] then map[] else Meaning(Meant(ops[..|ops| - 1]), ops[|ops| - 1])
  }

  /** An operation that brings no time an int cannot tell from "none". */
  predicate Fair(op: Op) {
    op.Add? && op.schedule >= 0 ==> 0 < (if op.epoch then op.schedule else op.now + op.schedule) <= INT_MAX
  }

  lemma RemovedAt(list: seq<Entry>, t: Target, j: nat)
    requires j < |Removed(list, t)|
    ensures var i := Find(list, t);
            Removed(list, t)[j] == if j < i || i == |list| then list[j] else list[j + 1]
  {
  }

  lemma StaysMentioned(list: seq<Entry>, t: Target, x: Target)
    requires Mentions(list, x) && x != t
    ensures Mentions(Removed(list, t), x)
  {
    var i, r := Find(list, t), Removed(list, t);
    var j :| 0 <= j < |list| && list[j].target == x;
    if i < |list| {
      assert r[if j < i then j else j - 1] == list[j];
    }
  }

  lemma RemovedStands(list: seq<Entry>, m: map<Target, int>, t: Target)
    requires Stands(list, m)
    ensures Stands(Removed(list, t), m - {t})
  {
    RemovedUnique(list, t);
    RemovedSorted(list, t);
    var r := Removed(list, t);
    forall x | x in m - {t} ensures Mentions(r, x) {
      StaysMentioned(list, t, x);
    }
    forall j | 0 <= j < |r| ensures r[j].target in m - {t} && m[r[j].target] == r[j].schedule {
      RemovedAt(list, t, j);
    }
  }

  lemma InsertedAt(list: seq<Entry>, e: Entry, j: nat)
    requires j <= |list|
    ensures var i := Upper(list, e.schedule);
            Inserted(list, e)[j] == if j < i then list[j] else if j == i then e else list[j - 1]
  {
  }

  lemma InsertedMentions(list: seq<Entry>, e: Entry, x: Target)
    requires Mentions(list, x) || x == e.target
    ensures Mentions(Inserted(list, e), x)
  {
    var i, r := Upper(list, e.schedule), Inserted(list, e);
    if x == e.target {
      assert r[i].target == x;
    } else {
      var j :| 0 <= j < |list| && list[j].target == x;
      assert r[if j < i then j else j + 1] == list[j];
    }
  }

  lemma InsertedStands(list: seq<Entry>, m: map<Target, int>, e: Entry)
    requires Stands(list, m) && e.target !in m
    ensures Stands(Inserted(list, e), m[e.target := e.schedule])
  {
    InsertedUnique(list, e);
    InsertedSorted(list, e);
    var r, m' := Inserted(list, e), m[e.target := e.schedule];
    forall j | 0 <= j < |r| ensures r[j].target in m' && m'[r[j].target] == r[j].schedule {
      InsertedAt(list, e, j);
    }
    forall x | x in m' ensures Mentions(r, x) {
      InsertedMentions(list, e, x);
    }
  }

  /** While all times can be told, adding first removes whatever entry there is. */
  lemma AddReplaces(list: seq<Entry>, t: Target, schedule: Int32, epoch: bool, now: int)
    requires Tellable(list) && schedule >= 0
    ensures Added(list, t, schedule, epoch, now) == Inserted(Removed(list, t), NewEntry(t, schedule, epoch, now))
  {
  }

  lemma RemovedTellable(list: seq<Entry>, t: Target)
    requires Tellable(list)
    ensures Tellable(Removed(list, t))
  {
    forall j | 0 <= j < |Removed(list, t)| ensures 0 < Removed(list, t)[j].schedule <= INT_MAX {
      RemovedAt(list, t, j);
    }
  }

  lemma InsertedTellable(list: seq<Entry>, e: Entry)
    requires Tellable(list) && 0 < e.schedule <= INT_MAX
    ensures Tellable(Inserted(list, e))
  {
    forall j | 0 <= j < |Inserted(list, e)| ensures 0 < Inserted(list, e)[j].schedule <= INT_MAX {
      InsertedAt(list, e, j);
    }
  }

  lemma ReplacedStands(list: seq<Entry>, m: map<Target, int>, e: Entry)
    requires Stands(list, m)
    ensures Stands(Inserted(Removed(list, e.target), e), m[e.target := e.schedule])
  {
    var r, n := Removed(list, e.target), m - {e.target};
    RemovedStands(list, m, e.target);
    InsertedStands(r, n, e);
    assert n[e.target := e.schedule] == m[e.target := e.schedule];
  }

  /** Both at once: what the list stands for, and that its times can be told. */
  ghost predicate Agrees(list: seq<Entry>, m: map<Target, int>) {
    Stands(list, m) && Tellable(list)
  }

  lemma DeleteAgrees(list: seq<Entry>, m: map<Target, int>, t: Target)
    requires Agrees(list, m)
    ensures Agrees(Removed(list, t), m - {t})
  {
    RemovedStands(list, m, t);
    RemovedTellable(list, t);
  }

  lemma AddAgrees(list: seq<Entry>, m: map<Target, int>, e: Entry)
    requires Agrees(list, m) && 0 < e.schedule <= INT_MAX
    ensures Agrees(Inserted(Removed(list, e.target), e), m[e.target := e.schedule])
  {
    ReplacedStands(list, m, e);
    RemovedTellable(list, e.target);
    InsertedTellable(Removed(list, e.target), e);
  }

  lemma ApplyIs(list: seq<Entry>, op: Op)
    requires Tellable(list) && op.Add? && op.schedule >= 0
    ensures Apply(list, op) == Inserted(Removed(list, op.t), NewEntry(op.t, op.schedule, op.epoch, op.now))
  {
    AddReplaces(list, op.t, op.schedule, op.epoch, op.now);
  }

  lemma MeaningIs(m: map<Target, int>, op: Op, e: Entry)
    requires op.Add? && op.schedule >= 0 && e == NewEntry(op.t, op.schedule, op.epoch, op.now)
    ensures Meaning(m, op) == m[e.target := e.schedule]
    ensures Fair(op) ==> 0 < e.schedule <= INT_MAX
  {
  }

  lemma ApplyAgrees(list: seq<Entry>, m: map<Target, int>, op: Op, r: seq<Entry>, m': map<Target, int>)
    requires Agrees(list, m) && Fair(op) && r == Apply(list, op) && m' == Meaning(m, op)
    ensures Agrees(r, m')
  {
    if op.Delete? {
      DeleteAgrees(list, m, op.t);
    } else if op.schedule >= 0 {
      var e := NewEntry(op.t, op.schedule, op.epoch, op.now);
      ApplyIs(list, op);
      MeaningIs(m, op, e);
      AddAgrees(list, m, e);
    }
  }

  /** After any run of fair operations there is one entry for each target that has a
      time, with its latest time, and the list is in the order of time. */
  lemma {:induction false} RunAgrees(ops: seq<Op>)
    requires forall i :: 0 <= i < |ops| ==> Fair(ops[i])
    ensures Stands(Run(ops), Meant(ops)) && Tellable(Run(ops))
  {
    if ops != [] {
      var last := |ops| - 1;
      RunAgrees(ops[..last]);
      ApplyAgrees(Run(ops[..last]), Meant(ops[..last]), ops[last], Run(ops), Meant(ops));
    }
  }

  /** Times given as such, and not relative to now, are fair unless they are zero. */
  lemma EpochRunAgrees(ops: seq<Op>)
    requires forall i :: 0 <= i < |ops| && ops[i].Add? ==> ops[i].epoch && ops[i].schedule != 0
    ensures Stands(Run(ops), Meant(ops))
  {
    forall i | 0 <= i < |ops| ensures Fair(ops[i]) {
    }
    RunAgrees(ops);
  }

  /** What is due after such a run: the targets whose latest time is before `time`. */
  lemma DueAfterRun(ops: seq<Op>, time: int, t: Target)
    requires forall i :: 0 <= i < |ops| ==> Fair(ops[i])
    ensures Mentions(Due(Run(ops), time), t) <==> t in Meant(ops) && Meant(ops)[t] < time
  {
    RunAgrees(ops);
    DueExactly(Run(ops), time);
    var list, n := Run(ops), |Due(Run(ops), time)|;
    if t in Meant(ops) {
      assert Mentions(list, t);
      var i :| 0 <= i < |list| && list[i].target == t;
      assert i < n ==> Due(list, time)[i] == list[i];
    }
  }

  /** After such a run GetTIME answers the latest time of a target, and -1 if it has none. */
  lemma TimeAfterRun(ops: seq<Op>, t: Target)
    requires forall i :: 0 <= i < |ops| ==> Fair(ops[i])
    ensures Time(Run(ops), t) == if t in Meant(ops) then Meant(ops)[t] else -1
  {
    RunAgrees(ops);
    var list, i := Run(ops), Find(Run(ops), t);
    if t in Meant(ops) {
      assert Mentions(list, t) && i < |list|;
    }
    assert i < |list| ==> list[i].target in Meant(ops);
  }
}
