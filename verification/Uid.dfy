/**
  The identifiers of clients: three characters of the server's own, and six that run
  through a single cycle like the digits of an odometer.
 */
module Uid {
  import opened Bytes

  const UUID_LIMIT := 9

  // ------------------------------------------------- digits

  /** The digits are the letters A to Z and then 0 to 9. */
  predicate IsDigit(c: Byte) { 65 <= c <= 90 || 48 <= c <= 57 }

  function Digit(c: Byte): (d: nat)
    requires IsDigit(c)
    ensures d < 36
  {
    if c >= 65 then c - 65 else c - 22
  }

  ghost predicate Odometer(s: Text) {
    forall i :: 0 <= i < |s| ==> IsDigit(s[i])
  }

  function Power(n: nat): (p: nat)
    ensures p > 0
  {
    if n == 0 then 1 else 36 * Power(n - 1)
  }

  /** What the odometer shows, in base 36. */
  ghost function Value(s: Text): nat
    requires Odometer(s)
  {
    if s == [] then 0 else 36 * Value(s[..|s| - 1]) + Digit(s[|s| - 1])
  }

  lemma {:induction false} ValueFits(s: Text)
    requires Odometer(s)
    ensures Value(s) < Power(|s|)
  {
    if s != [] {
      ValueFits(s[..|s| - 1]);
    }
  }

  lemma SameDigit(b: Byte, c: Byte)
    requires IsDigit(b) && IsDigit(c) && Digit(b) == Digit(c)
    ensures b == c
  {
  }

  /** Different settings of the odometer show different values. */
  lemma {:induction false} ValueIdentifies(s: Text, t: Text)
    requires Odometer(s) && Odometer(t) && |s| == |t| && Value(s) == Value(t)
    ensures s == t
  {
    if s != [] {
      var last := |s| - 1;
      ValueIdentifies(s[..last], t[..last]);
      SameDigit(s[last], t[last]);
      assert s == s[..last] + [s[last]] && t == t[..last] + [t[last]];
    }
  }

  // ------------------------------------------------- one step

  /** One step of the odometer: the last place moves on, and carries when it comes round. */
  function Next(s: Text): (r: Text)
    ensures |r| == |s|
  {
    if s == [] then []
    else var last := |s| - 1;
         if s[last] == 90 then s[..last] + [48]
         else if s[last] == 57 then Next(s[..last]) + [65]
         else s[..last] + [if s[last] == 255 then 0 else s[last] + 1]
  }

  /** `v` advanced by `k` on a cycle of length `p`, for at most one time around. */
  function Advanced(v: nat, k: nat, p: nat): nat
    requires v < p && k <= p
  {
    if v + k < p then v + k else v + k - p
  }

  /** A step adds one, and the highest value is followed by zero. */
  lemma {:induction false} NextIsSuccessor(s: Text)
    requires Odometer(s)
    ensures Value(s) < Power(|s|) && Odometer(Next(s)) && Value(Next(s)) == Advanced(Value(s), 1, Power(|s|))
  {
    ValueFits(s);
    if s != [] {
      var last, r := |s| - 1, Next(s);
      NextIsSuccessor(s[..last]);
      if s[last] == 57 {
        assert r[..last] == Next(s[..last]) && Digit(r[last]) == 0 && Digit(s[last]) == 35;
      } else {
        assert r[..last] == s[..last] && Digit(r[last]) == Digit(s[last]) + 1;
      }
    }
  }

  // ------------------------------------------------- the cycle

  function Iterate<T>(f: T -> T, x: T, k: nat): T {
    if k == 0 then x else f(Iterate(f, x, k - 1))
  }

  lemma {:induction false} IterateCompose<T>(f: T -> T, x: T, i: nat, k: nat)
    ensures Iterate(f, Iterate(f, x, i), k) == Iterate(f, x, i + k)
  {
    if k > 0 {
      IterateCompose(f, x, i, k - 1);
      assert i + k - 1 == i + (k - 1);
    }
  }

  function Steps(s: Text, k: nat): Text {
    Iterate(Next, s, k)
  }

  lemma StepOnce(s: Text, k: nat)
    ensures Steps(s, 0) == s && Steps(s, k + 1) == Next(Steps(s, k))
  {
  }

  lemma {:induction false} StepsAdd(s: Text, k: nat)
    requires Odometer(s) && k <= Power(|s|)
    ensures Value(s) < Power(|s|) && |Steps(s, k)| == |s| && Odometer(Steps(s, k))
    ensures Value(Steps(s, k)) == Advanced(Value(s), k, Power(|s|))
  {
    ValueFits(s);
    if k > 0 {
      StepOnce(s, k - 1);
      StepsAdd(s, k - 1);
      NextIsSuccessor(Steps(s, k - 1));
    }
  }

  lemma {:induction false} StepsStay(s: Text, i: nat)
    requires Odometer(s)
    ensures |Steps(s, i)| == |s| && Odometer(Steps(s, i))
  {
    if i > 0 {
      StepOnce(s, i - 1);
      StepsStay(s, i - 1);
      NextIsSuccessor(Steps(s, i - 1));
    }
  }

  lemma BackAfterPeriod(s: Text, k: nat)
    requires Odometer(s) && 0 < k <= Power(|s|)
    ensures Steps(s, k) == s <==> k == Power(|s|)
  {
    StepsAdd(s, k);
    if k == Power(|s|) {
      ValueIdentifies(s, Steps(s, k));
    } else {
      assert Value(Steps(s, k)) != Value(s);
    }
  }

  /** All settings lie on one cycle: within a period no two steps show the same, and
      after a full period the odometer is back. */
  lemma OneCycle(s: Text, i: nat, k: nat)
    requires Odometer(s) && 0 < k <= Power(|s|)
    ensures Steps(s, i + k) == Steps(s, i) <==> k == Power(|s|)
  {
    var u := Steps(s, i);
    StepsStay(s, i);
    BackAfterPeriod(u, k);
    IterateCompose(Next, s, i, k);
    assert Steps(s, i + k) == Steps(u, k);
  }

  /** Every setting is reached from every other. */
  lemma Reached(s: Text, t: Text) returns (k: nat)
    requires Odometer(s) && Odometer(t) && |s| == |t|
    ensures 0 < k <= Power(|s|) && Steps(s, k) == t
  {
    var p := Power(|s|);
    ValueFits(s);
    ValueFits(t);
    k := if Value(t) > Value(s) then Value(t) - Value(s) else Value(t) + p - Value(s);
    StepsAdd(s, k);
    ValueIdentifies(Steps(s, k), t);
  }

  lemma PeriodIs()
    ensures Power(6) == 36 * 36 * 36 * 36 * 36 * 36 == 2176782336
  {
    assert Power(3) == 46656;
    assert Power(6) == 36 * (36 * (36 * Power(3)));
  }

  // ------------------------------------------------- the handler

  /** An identifier of the server with the characters `sid`. */
  ghost predicate Belongs(sid: Text, id: Text) {
    |id| == UUID_LIMIT && id[..3] == sid && Odometer(id[3..])
  }

  /** The identifiers of this server that are in use. */
  ghost function Taken(sid: Text, used: set<Text>): set<Text> {
    set id | id in used && Belongs(sid, id)
  }

  class UidHandler {
    var lastUid: Text

    ghost predicate Valid(sid: Text)
      reads this
    {
      Belongs(sid, lastUid)
    }

    constructor ()
      ensures lastUid == []
    {
      lastUid := [];
    }

    /** The odometer starts at its highest setting, so the first identifier shows zero. */
    method Initialize(sid: Text)
      requires |sid| == 3 && lastUid == []
      modifies this
      ensures Valid(sid) && lastUid == sid + [57, 57, 57, 57, 57, 57]
    {
      lastUid := seq(UUID_LIMIT, _ => 57);
      lastUid := lastUid[0 := sid[0]];
      lastUid := lastUid[1 := sid[1]];
      lastUid := lastUid[2 := sid[2]];
    }

    /** The places from 3 to `pos` take one step; nothing else changes. */
    method FindNext(pos: nat)
      requires 3 <= pos < |lastUid| && Odometer(lastUid[3..])
      modifies this
      ensures |lastUid| == |old(lastUid)|
      ensures lastUid[..3] == old(lastUid[..3]) && lastUid[pos + 1..] == old(lastUid[pos + 1..])
      ensures lastUid[3..pos + 1] == Next(old(lastUid[3..pos + 1]))
      decreases pos
    {
      ghost var place := old(lastUid)[3..pos + 1];
      assert place[..|place| - 1] == old(lastUid)[3..pos] && place[|place| - 1] == lastUid[pos];
      if lastUid[pos] == 90 {
        lastUid := lastUid[pos := 48];
      } else if lastUid[pos] == 57 {
        lastUid := lastUid[pos := 65];
        if pos == 3 {
          return;
        }
        assert lastUid[3..pos] == old(lastUid)[3..pos];
        FindNext(pos - 1);
        assert lastUid[pos] == lastUid[pos..][0] == 65;
        assert lastUid[pos + 1..] == lastUid[pos..][1..] == old(lastUid)[pos + 1..];
        assert lastUid[3..pos + 1] == lastUid[3..pos] + [65];
      } else {
        assert IsDigit(old(lastUid)[3..][pos - 3]);
        lastUid := lastUid[pos := lastUid[pos] + 1];
      }
    }

    /** Steps until an identifier is not in use: at most one step more than there are
        identifiers of this server in use, and none that is free is passed over. */
    method GetUid(sid: Text, used: set<Text>) returns (uid: Text)
      requires Valid(sid) && |Taken(sid, used)| < Power(6)
      modifies this
      ensures Valid(sid) && uid == lastUid && uid !in used
      ensures exists k :: 0 < k <= |Taken(sid, used)| + 1 && uid == After(old(lastUid), k)
                          && forall j :: 0 < j < k ==> After(old(lastUid), j) in used
    {
      ghost var start := lastUid;
      ghost var k := 0;
      assert start == After(start, 0);
      while true
        invariant Valid(sid) && k <= |Taken(sid, used)| && lastUid == After(start, k)
        invariant forall j :: 0 < j <= k ==> After(start, j) in used
        decreases |Taken(sid, used)| - k
      {
        AfterBelongs(sid, start, k);
        FindNext(UUID_LIMIT - 1);
        AfterNext(start, k, lastUid);
        AfterBelongs(sid, start, k + 1);
        if lastUid !in used {
          assert lastUid == After(start, k + 1);
          break;
        }
        k := k + 1;
        Crowded(sid, start, k, used);
      }
      uid := lastUid;
    }
  }

  // ------------------------------------------------- why the search ends

  /** The identifier `k` steps after `id`. */
  function After(id: Text, k: nat): Text
    requires |id| == UUID_LIMIT
  {
    id[..3] + Steps(id[3..], k)
  }

  lemma AfterBelongs(sid: Text, id: Text, k: nat)
    requires Belongs(sid, id)
    ensures |Steps(id[3..], k)| == 6 && Belongs(sid, After(id, k))
  {
    StepsStay(id[3..], k);
    assert After(id, k)[3..] == Steps(id[3..], k) && After(id, k)[..3] == id[..3];
  }

  lemma AfterNext(id: Text, k: nat, now: Text)
    requires |id| == UUID_LIMIT && |now| == UUID_LIMIT && |Steps(id[3..], k)| == 6
    requires now[..3] == After(id, k)[..3] && now[3..UUID_LIMIT] == Next(After(id, k)[3..UUID_LIMIT])
    ensures now == After(id, k + 1)
  {
    StepOnce(id[3..], k);
    assert After(id, k)[3..UUID_LIMIT] == Steps(id[3..], k) && After(id, k)[..3] == id[..3];
    assert now == now[..3] + now[3..UUID_LIMIT];
  }

  /** The identifiers of a server come back after exactly 2176782336 steps. */
  lemma IdentifiersCycle(sid: Text, id: Text, k: nat)
    requires Belongs(sid, id) && 0 < k <= 2176782336
    ensures After(id, k) == id <==> k == 2176782336
  {
    PeriodIs();
    BackAfterPeriod(id[3..], k);
    assert id == id[..3] + id[3..];
    AfterBelongs(sid, id, k);
    assert After(id, k)[3..] == Steps(id[3..], k);
  }

  ghost function Visited(id: Text, k: nat): set<Text>
    requires |id| == UUID_LIMIT
  {
    if k == 0 then {} else Visited(id, k - 1) + {After(id, k)}
  }

  lemma {:induction false} VisitedMembers(id: Text, k: nat, x: Text)
    requires |id| == UUID_LIMIT
    ensures x in Visited(id, k) <==> exists j :: 0 < j <= k && x == After(id, j)
  {
    if k > 0 {
      VisitedMembers(id, k - 1, x);
    }
  }

  lemma AfterApart(sid: Text, id: Text, i: nat, j: nat)
    requires Belongs(sid, id) && i < j < i + Power(6)
    ensures After(id, i) != After(id, j)
  {
    OneCycle(id[3..], i, j - i);
    assert After(id, i)[3..] == Steps(id[3..], i) && After(id, j)[3..] == Steps(id[3..], j);
  }

  /** The identifiers visited within one period are all different. */
  lemma {:induction false} VisitedSize(sid: Text, id: Text, k: nat)
    requires Belongs(sid, id) && k <= Power(6)
    ensures |Visited(id, k)| == k
  {
    if k > 0 {
      VisitedSize(sid, id, k - 1);
      VisitedMembers(id, k - 1, After(id, k));
      if j :| 0 < j <= k - 1 && After(id, k) == After(id, j) {
        AfterApart(sid, id, j, k);
      }
    }
  }

  lemma SubsetSize<T>(a: set<T>, b: set<T>)
    requires a <= b
    ensures |a| <= |b| && (|a| == |b| ==> a == b)
  {
    var c := b - a;
    assert b == a + c;
  }

  /** If the next `k` identifiers are all in use, then that many are in use. */
  lemma Crowded(sid: Text, id: Text, k: nat, used: set<Text>)
    requires Belongs(sid, id) && k <= Power(6) && forall j :: 0 < j <= k ==> After(id, j) in used
    ensures k <= |Taken(sid, used)|
  {
    VisitedSize(sid, id, k);
    forall x | x in Visited(id, k) ensures x in Taken(sid, used) {
      VisitedMembers(id, k, x);
      var j :| 0 < j <= k && x == After(id, j);
      AfterBelongs(sid, id, j);
    }
    SubsetSize(Visited(id, k), Taken(sid, used));
  }

  /** Every identifier of the server is visited within one period. */
  lemma AllVisited(sid: Text, id: Text, x: Text)
    requires Belongs(sid, id) && Belongs(sid, x)
    ensures x in Visited(id, Power(6))
  {
    var k := Reached(id[3..], x[3..]);
    assert x == x[..3] + x[3..];
    assert x == After(id, k);
    VisitedMembers(id, Power(6), x);
  }

  /** The search for a free identifier ends exactly if not all 36^6 are in use. */
  lemma FreeExactly(sid: Text, id: Text, used: set<Text>)
    requires Belongs(sid, id)
    ensures (exists k :: k > 0 && After(id, k) !in used) <==> |Taken(sid, used)| < Power(6)
  {
    var p := Power(6);
    if |Taken(sid, used)| < p {
      if forall j :: 0 < j <= p ==> After(id, j) in used {
        Crowded(sid, id, p, used);
      }
    } else {
      forall x | x in Taken(sid, used) ensures x in Visited(id, p) {
        AllVisited(sid, id, x);
      }
      VisitedSize(sid, id, p);
      SubsetSize(Taken(sid, used), Visited(id, p));
      forall k | k > 0 ensures After(id, k) in used {
        AfterBelongs(sid, id, k);
        AllVisited(sid, id, After(id, k));
      }
    }
  }
}
