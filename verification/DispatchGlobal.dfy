/**
  The order of the internal Global user's queries.

  No lock keeps the queries of the Global user apart, so it is the number of data threads
  that decides: with one thread they take effect in the order in which they were posted,
  with any other number they need not.
 */
module DispatchGlobal {
  import opened Wrappers
  import opened Dispatch
  import opened DispatchInvariant
  import opened DispatchRuns

  /** The effects of the Global user are its posted, well-formed queries up to some point,
      in the order they were posted. */
  ghost predicate InOrder(s: State)
    requires GLOBAL in s.clients
  {
    var posted := s.clients[GLOBAL].accepted;
    exists n :: 0 <= n <= |posted| && Owned(s.effects, GLOBAL) == Formed(posted[..n])
  }

  /** A run in which every query goes to the thread picked for it. */
  ghost predicate PickedRun(states: seq<State>, labels: seq<Label>) {
    Execution(states, labels) && AllByPick(states, labels)
  }

  /** In every state of every such run with `n` threads the Global user is in order. */
  ghost predicate AlwaysInOrder(n: nat) {
    forall states: seq<State>, labels: seq<Label>, i: nat ::
      PickedRun(states, labels) && |states[0].workers| == n && i < |states| ==>
        GLOBAL in states[i].clients && InOrder(states[i])
  }

  // ------------------------------------------------- one thread

  /** The queries a thread has been given but not yet run. */
  function Unbegun(k: Worker): seq<Query> {
    if k.phase.Busy? && k.phase.stage.Took? then [k.phase.query] + k.queue else k.queue
  }

  /** `rest` is the end of what was posted, and what lies before it has taken effect. */
  ghost predicate Upto(posted: seq<Query>, rest: seq<Query>, effects: seq<Query>) {
    && |rest| <= |posted| && posted[|posted| - |rest|..] == rest
    && effects == Formed(posted[..|posted| - |rest|])
  }

  lemma UptoPosted(posted: seq<Query>, rest: seq<Query>, effects: seq<Query>, q: Query)
    requires Upto(posted, rest, effects)
    ensures Upto(posted + [q], rest + [q], effects)
  {
    var n := |posted| - |rest|;
    assert (posted + [q])[..n] == posted[..n];
  }

  lemma UptoBegun(posted: seq<Query>, rest: seq<Query>, effects: seq<Query>, q: Query)
    requires Upto(posted, [q] + rest, effects)
    ensures Upto(posted, rest, if q.formed then effects + [q] else effects)
  {
    var n := |posted| - |rest|;
    assert posted[n - 1..][0] == q && posted[n - 1..][1..] == rest;
    assert posted[..n] == posted[..n - 1] + [q];
    FormedAppend(posted[..n - 1], q);
  }

  lemma {:induction false} OwnedCons(q: Query, queries: seq<Query>, c: Client)
    ensures Owned([q] + queries, c) == (if q.owner == c then [q] else []) + Owned(queries, c)
  {
    if queries == [] {
      OwnedAppend([], q, c);
      assert [] + [q] == [q] + queries;
    } else {
      var last := |queries| - 1;
      OwnedCons(q, queries[..last], c);
      OwnedAppend([q] + queries[..last], queries[last], c);
      assert [q] + queries[..last] + [queries[last]] == [q] + queries;
    }
  }

  /** What one thread keeps: what it holds of the Global user is the end of what was
      posted, and the rest has taken effect in that order. */
  ghost predicate Single(s: State) {
    && |s.workers| == 1 && GLOBAL in s.clients
    && Upto(s.clients[GLOBAL].accepted, Owned(Unbegun(s.workers[0]), GLOBAL), Owned(s.effects, GLOBAL))
  }

  lemma SinglePost(s: State, c: Client)
    requires Single(s) && Labelled(s) && Enabled(s, Post(c, 0))
    ensures Single(Do(s, Post(c, 0)))
  {
    hide Upto, Owned;
    var q, k := s.clients[c].pending[0], s.workers[0];
    var k' := k.(queue := k.queue + [q]);
    assert q.owner == c;
    assert Unbegun(k') == Unbegun(k) + [q];
    OwnedAppend(Unbegun(k), q, GLOBAL);
    if c == GLOBAL {
      UptoPosted(s.clients[c].accepted, Owned(Unbegun(k), GLOBAL), Owned(s.effects, GLOBAL), q);
    }
  }

  lemma SingleTake(s: State)
    requires Single(s) && Enabled(s, Take(0))
    ensures Single(Do(s, Take(0)))
  {
    hide Upto, Owned;
    var k := s.workers[0];
    assert [k.queue[0]] + k.queue[1..] == k.queue;
  }

  lemma SingleBegin(s: State)
    requires Single(s) && Enabled(s, Begin(0))
    ensures Single(Do(s, Begin(0)))
  {
    hide Upto, Owned, Formed;
    var q, queue := s.workers[0].phase.query, s.workers[0].queue;
    OwnedCons(q, queue, GLOBAL);
    OwnedAppend(s.effects, q, GLOBAL);
    assert s.effects + [] == s.effects && [] + Owned(queue, GLOBAL) == Owned(queue, GLOBAL);
    if q.owner == GLOBAL {
      UptoBegun(s.clients[GLOBAL].accepted, Owned(queue, GLOBAL), Owned(s.effects, GLOBAL), q);
    }
  }

  lemma SingleFrame(s: State, t: State)
    requires Single(s) && |t.workers| == 1 && Unbegun(t.workers[0]) == Unbegun(s.workers[0]) && t.effects == s.effects
    requires GLOBAL in t.clients && t.clients[GLOBAL].accepted == s.clients[GLOBAL].accepted
    ensures Single(t)
  {
  }

  /** The steps of the main loop that post nothing, and those of the life cycle. */
  lemma SingleMain(s: State, l: Label)
    requires Single(s) && Enabled(s, l)
    requires l.AddUser? || l.Push? || l.Refuse? || l.Deliver? || l.Disconnect? || l.ForceExit? || l.Apply?
    ensures Single(Do(s, l))
  {
    hide Upto, Owned;
    var t := Do(s, l);
    assert t.workers == s.workers && t.effects == s.effects;
    assert GLOBAL in t.clients && t.clients[GLOBAL].accepted == s.clients[GLOBAL].accepted;
    SingleFrame(s, t);
  }

  lemma SingleWorker(s: State, l: Label)
    requires Single(s) && Enabled(s, l) && (l.Batch? || l.End? || l.Attach?)
    ensures Single(Do(s, l))
  {
    hide Upto, Owned;
    var t := Do(s, l);
    assert |t.workers| == 1 && Unbegun(t.workers[0]) == Unbegun(s.workers[0]) && t.effects == s.effects;
    assert GLOBAL in t.clients && t.clients[GLOBAL].accepted == s.clients[GLOBAL].accepted;
    SingleFrame(s, t);
  }

  lemma SingleStep(s: State, l: Label)
    requires Single(s) && Labelled(s) && Enabled(s, l)
    ensures Single(Do(s, l))
  {
    if l.Post? {
      SinglePost(s, l.c);
    } else if l.Take? {
      SingleTake(s);
    } else if l.Begin? {
      SingleBegin(s);
    } else if l.Batch? || l.End? || l.Attach? {
      SingleWorker(s, l);
    } else {
      SingleMain(s, l);
    }
  }

  lemma {:induction false} SingleAt(states: seq<State>, labels: seq<Label>, i: nat)
    requires Execution(states, labels) && |states[0].workers| == 1 && i < |states|
    ensures Single(states[i])
  {
    if i > 0 {
      SingleAt(states, labels, i - 1);
      LabelledAt(states, labels, i - 1);
      StepAt(states, labels, i);
      SingleStep(states[i - 1], labels[i - 1]);
    }
  }

  /** With one thread, in every state of every run the Global user's queries have taken
      effect in the order they were posted. */
  lemma OneThreadKeepsOrder(states: seq<State>, labels: seq<Label>, i: nat)
    requires Execution(states, labels) && |states[0].workers| == 1 && i < |states|
    ensures GLOBAL in states[i].clients && InOrder(states[i])
  {
    SingleAt(states, labels, i);
    var s := states[i];
    var posted, rest := s.clients[GLOBAL].accepted, Owned(Unbegun(s.workers[0]), GLOBAL);
    assert Owned(s.effects, GLOBAL) == Formed(posted[..|posted| - |rest|]);
  }

  // ------------------------------------------------- two threads and more

  const RESTING := Worker([], Idle)

  /** `n` threads, of which all but the first two rest. */
  function Threads(n: nat, k0: Worker, k1: Worker): (r: seq<Worker>)
    requires n >= 2
    ensures |r| == n && r[0] == k0 && r[1] == k1 && forall i :: 2 <= i < n ==> r[i] == RESTING
  {
    [k0, k1] + seq(n - 2, _ => RESTING)
  }

  /** Nobody but the Global user. */
  function Scene(u: Conn, workers: seq<Worker>, mute: Option<nat>, effects: seq<Query>): State {
    State(map[GLOBAL := u], {}, [], [], [], workers, mute, effects)
  }

  lemma Next(states: seq<State>, labels: seq<Label>, l: Label, t: State) returns (states': seq<State>, labels': seq<Label>)
    requires PickedRun(states, labels)
    requires var s := states[|labels|]; Enabled(s, l) && ByPick(s, l) && t == Do(s, l)
    ensures PickedRun(states', labels') && states'[0] == states[0] && states'[|labels'|] == t
  {
    states', labels' := states + [t], labels + [l];
    forall i | 0 <= i < |labels'|
      ensures Enabled(states'[i], labels'[i]) && ByPick(states'[i], labels'[i]) && states'[i + 1] == Do(states'[i], labels'[i])
    {
      if i < |labels| {
        assert Enabled(states[i], labels[i]) && ByPick(states[i], labels[i]) && states[i + 1] == Do(states[i], labels[i]);
      }
    }
  }

  const FIRST := Query(GLOBAL, 0, Quiet, true)
  const SECOND := Query(GLOBAL, 1, Quiet, true)
  const BOTH_PUSHED := NEW_CONN.(pending := [FIRST, SECOND], pushed := [FIRST, SECOND])
  const FIRST_POSTED := BOTH_PUSHED.(pending := [SECOND], accepted := [FIRST])
  const BOTH_POSTED := BOTH_PUSHED.(pending := [], accepted := [FIRST, SECOND])

  lemma Pushes(n: nat) returns (states: seq<State>, labels: seq<Label>)
    requires n >= 2
    ensures PickedRun(states, labels) && |states[0].workers| == n
    ensures states[|labels|] == Scene(BOTH_PUSHED, Threads(n, RESTING, RESTING), None, [])
  {
    assert [] + [FIRST] == [FIRST] && [FIRST] + [SECOND] == [FIRST, SECOND];
    var idle, u1 := Threads(n, RESTING, RESTING), NEW_CONN.(pending := [FIRST], pushed := [FIRST]);
    states, labels := [Scene(NEW_CONN, idle, None, [])], [];
    states, labels := Next(states, labels, Push(GLOBAL, Quiet, true), Scene(u1, idle, None, []));
    states, labels := Next(states, labels, Push(GLOBAL, Quiet, true), Scene(BOTH_PUSHED, idle, None, []));
  }

  /** The first thread takes the first query and is busy, so the second query goes to the
      second thread. */
  lemma Posts(n: nat) returns (states: seq<State>, labels: seq<Label>)
    requires n >= 2
    ensures PickedRun(states, labels) && |states[0].workers| == n
    ensures states[|labels|] == Scene(BOTH_POSTED, Threads(n, Worker([], Busy(FIRST, Took)), Worker([SECOND], Idle)), None, [])
  {
    assert [] + [FIRST] == [FIRST] && [] + [SECOND] == [SECOND] && [FIRST] + [SECOND] == [FIRST, SECOND];
    assert [FIRST, SECOND][1..] == [SECOND] && [SECOND][1..] == [] && [FIRST][1..] == [];
    states, labels := Pushes(n);
    var took := Worker([], Busy(FIRST, Took));
    states, labels := PostTo(n, states, labels, 0, BOTH_PUSHED, FIRST_POSTED, RESTING, RESTING);
    states, labels := TakeBy(n, states, labels, 0, FIRST_POSTED, Worker([FIRST], Idle), RESTING, FIRST);
    states, labels := PostTo(n, states, labels, 1, FIRST_POSTED, BOTH_POSTED, took, RESTING);
  }

  lemma PostTo(n: nat, states: seq<State>, labels: seq<Label>, w: nat, u: Conn, u': Conn, k0: Worker, k1: Worker)
    returns (states': seq<State>, labels': seq<Label>)
    requires n >= 2 && w < 2 && (w == 0 ==> k0 == RESTING) && (w == 1 ==> IsBusy(k0) && k1 == RESTING)
    requires PickedRun(states, labels) && states[|labels|] == Scene(u, Threads(n, k0, k1), None, []) && u.pending != []
    requires u' == u.(pending := u.pending[1..], accepted := u.accepted + [u.pending[0]])
    ensures var k := Worker([u.pending[0]], Idle);
            && PickedRun(states', labels') && states'[0] == states[0]
            && states'[|labels'|] == Scene(u', if w == 0 then Threads(n, k, k1) else Threads(n, k0, k), None, [])
  {
    var k, s := Worker([u.pending[0]], Idle), states[|labels|];
    var t := Scene(u', if w == 0 then Threads(n, k, k1) else Threads(n, k0, k), None, []);
    assert [] + [u.pending[0]] == [u.pending[0]];
    assert t.workers == s.workers[w := k];
    states', labels' := Next(states, labels, Post(GLOBAL, w), t);
  }

  lemma TakeBy(n: nat, states: seq<State>, labels: seq<Label>, w: nat, u: Conn, k0: Worker, k1: Worker, q: Query)
    returns (states': seq<State>, labels': seq<Label>)
    requires n >= 2 && w < 2 && (if w == 0 then k0 else k1) == Worker([q], Idle) && q.owner == GLOBAL
    requires PickedRun(states, labels) && states[|labels|] == Scene(u, Threads(n, k0, k1), None, [])
    ensures var k := Worker([], Busy(q, Took));
            && PickedRun(states', labels') && states'[0] == states[0]
            && states'[|labels'|] == Scene(u, if w == 0 then Threads(n, k, k1) else Threads(n, k0, k), None, [])
  {
    var k, s := Worker([], Busy(q, Took)), states[|labels|];
    var t := Scene(u, if w == 0 then Threads(n, k, k1) else Threads(n, k0, k), None, []);
    assert [q][1..] == [];
    assert t.workers == s.workers[w := k];
    states', labels' := Next(states, labels, Take(w), t);
  }

  lemma BeginBy(n: nat, states: seq<State>, labels: seq<Label>, w: nat, u: Conn, k0: Worker, k1: Worker, q: Query, effects: seq<Query>)
    returns (states': seq<State>, labels': seq<Label>)
    requires n >= 2 && w < 2 && (if w == 0 then k0 else k1) == Worker([], Busy(q, Took)) && q.owner == GLOBAL && q.formed
    requires PickedRun(states, labels) && states[|labels|] == Scene(u, Threads(n, k0, k1), None, effects)
    ensures var k := Worker([], Busy(q, Running(0)));
            && PickedRun(states', labels') && states'[0] == states[0]
            && states'[|labels'|] ==
                 Scene(u, if w == 0 then Threads(n, k, k1) else Threads(n, k0, k), Some(w), effects + [q])
  {
    var k, s := Worker([], Busy(q, Running(0))), states[|labels|];
    var t := Scene(u, if w == 0 then Threads(n, k, k1) else Threads(n, k0, k), Some(w), effects + [q]);
    assert t.workers == s.workers[w := k];
    states', labels' := Next(states, labels, Begin(w), t);
  }

  /** The second thread is the first to get hold of query_mute. */
  lemma SecondFirst(n: nat) returns (states: seq<State>, labels: seq<Label>)
    requires n >= 2
    ensures PickedRun(states, labels) && |states[0].workers| == n
    ensures states[|labels|] ==
              Scene(BOTH_POSTED, Threads(n, Worker([], Busy(FIRST, Took)), Worker([], Busy(SECOND, Ran(false)))), None, [SECOND])
  {
    var k0, k1 := Worker([], Busy(FIRST, Took)), Worker([], Busy(SECOND, Ran(false)));
    states, labels := Posts(n);
    states, labels := TakeBy(n, states, labels, 1, BOTH_POSTED, k0, Worker([SECOND], Idle), SECOND);
    states, labels := BeginBy(n, states, labels, 1, BOTH_POSTED, k0, Worker([], Busy(SECOND, Took)), SECOND, []);
    assert [] + [SECOND] == [SECOND];
    var t := Scene(BOTH_POSTED, Threads(n, k0, k1), None, [SECOND]);
    assert t.workers == states[|labels|].workers[1 := k1];
    states, labels := Next(states, labels, End(1, false), t);
  }

  /** With any number of threads from two on there is a run, every query going to the
      thread picked for it, in which the second query of the Global user takes effect
      before its first. */
  lemma GlobalReorders(n: nat) returns (states: seq<State>, labels: seq<Label>)
    requires n >= 2
    ensures PickedRun(states, labels) && |states[0].workers| == n
    ensures var s := states[|labels|];
            && GLOBAL in s.clients && s.clients[GLOBAL].accepted == [FIRST, SECOND]
            && Owned(s.effects, GLOBAL) == [SECOND, FIRST] && !InOrder(s)
  {
    states, labels := SecondFirst(n);
    var k1 := Worker([], Busy(SECOND, Ran(false)));
    states, labels := BeginBy(n, states, labels, 0, BOTH_POSTED, Worker([], Busy(FIRST, Took)), k1, FIRST, [SECOND]);
    OwnedAppend([], SECOND, GLOBAL);
    OwnedAppend([SECOND], FIRST, GLOBAL);
    assert [] + [SECOND] == [SECOND];
    forall m | 0 <= m <= 2 ensures Formed([FIRST, SECOND][..m]) != [SECOND, FIRST] {
      FormedOfPrefix(m);
    }
  }

  lemma FormedOfPrefix(m: nat)
    requires m <= 2
    ensures Formed([FIRST, SECOND][..m]) == [FIRST, SECOND][..m]
  {
    FormedAppend([], FIRST);
    FormedAppend([FIRST], SECOND);
    assert [] + [FIRST] == [FIRST] && [FIRST] + [SECOND] == [FIRST, SECOND];
    assert [FIRST, SECOND][..m] == if m == 0 then [] else if m == 1 then [FIRST] else [FIRST, SECOND];
  }

  /** The Global user is always in order exactly if there is only one data thread. */
  lemma GlobalInOrderExactly(n: nat)
    requires n > 0
    ensures AlwaysInOrder(n) <==> n == 1
  {
    if n == 1 {
      forall states: seq<State>, labels: seq<Label>, i: nat
        | PickedRun(states, labels) && |states[0].workers| == n && i < |states|
        ensures GLOBAL in states[i].clients && InOrder(states[i])
      {
        OneThreadKeepsOrder(states, labels, i);
      }
    } else {
      var states, labels := GlobalReorders(n);
      var i := |labels|;
      assert PickedRun(states, labels) && |states[0].workers| == n && i < |states| && !InOrder(states[i]);
    }
  }
}
