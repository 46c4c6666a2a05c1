/**
  The protocol never gets stuck: whatever has happened, the threads can finish what they
  hold, and the main loop can then hand every client its answers.
 */
module DispatchProgress {
  import opened Wrappers
  import opened Dispatch
  import opened DispatchInvariant
  import opened DispatchTheorems
  import opened DispatchRuns
  import opened DispatchAnswers

  // ------------------------------------------------- what the threads still have to do

  /** The steps a thread still has to make for the query it is working on. */
  function PhaseWork(phase: Phase): nat {
    match phase
    case Idle => 0
    case Busy(_, Queued) => 4
    case Busy(_, Took) => 3
    case Busy(_, Running(_)) => 2
    case Busy(_, Ran(_)) => 1
  }

  function WorkerWork(k: Worker): nat {
    PhaseWork(k.phase) + 4 * |k.queue|
  }

  function Work(workers: seq<Worker>): nat {
    if workers == [] then 0 else WorkerWork(workers[0]) + Work(workers[1..])
  }

  lemma {:induction false} WorkUpdate(workers: seq<Worker>, w: nat, k: Worker)
    requires w < |workers|
    ensures Work(workers[w := k]) + WorkerWork(workers[w]) == Work(workers) + WorkerWork(k)
    decreases w
  {
    if w > 0 {
      WorkUpdate(workers[1..], w - 1, k);
      assert workers[w := k][1..] == workers[1..][w - 1 := k];
    } else {
      assert workers[w := k][1..] == workers[1..];
    }
  }

  lemma {:induction false} WorkSomewhere(workers: seq<Worker>) returns (w: nat)
    requires Work(workers) > 0
    ensures w < |workers| && WorkerWork(workers[w]) > 0
  {
    if WorkerWork(workers[0]) > 0 {
      w := 0;
    } else {
      w := WorkSomewhere(workers[1..]);
      w := w + 1;
    }
  }

  lemma {:induction false} NothingToDo(workers: seq<Worker>, w: nat)
    requires Work(workers) == 0 && w < |workers|
    ensures WorkerWork(workers[w]) == 0
    decreases w
  {
    if w > 0 {
      NothingToDo(workers[1..], w - 1);
    }
  }

  /** A step of a thread that moves its query on and does not interrupt it. */
  ghost predicate Advances(l: Label) {
    l.Take? || l.Begin? || (l.End? && !l.interrupted) || l.Attach?
  }

  /** The object behind a query that a thread works on exists. */
  lemma OwnerExists(s: State, w: nat)
    requires Absent(s) && w < |s.workers| && s.workers[w].phase.Busy?
    ensures Stands(s, w)
  {
    var c := s.workers[w].phase.query.owner;
    InFlightAt(s.workers, w, c);
    assert Slots(s.workers[w], c) != [];
  }

  /** No thread keeps a query at the stage it had in a queue. */
  ghost predicate Taken(s: State) {
    forall w :: 0 <= w < |s.workers| && s.workers[w].phase.Busy? ==> !s.workers[w].phase.stage.Queued?
  }

  lemma TakenStep(s: State, l: Label)
    requires Taken(s) && Enabled(s, l)
    ensures Taken(Do(s, l))
  {
  }

  lemma {:induction false} TakenAt(states: seq<State>, labels: seq<Label>, i: nat)
    requires Execution(states, labels) && i < |states|
    ensures Taken(states[i])
  {
    if i > 0 {
      TakenAt(states, labels, i - 1);
      StepAt(states, labels, i);
      TakenStep(states[i - 1], labels[i - 1]);
    }
  }

  /** The step a thread with work can make, while no other holds the lock. */
  function NextOf(s: State, w: nat): Label
    requires w < |s.workers|
  {
    match s.workers[w].phase
    case Idle => Take(w)
    case Busy(_, Ran(_)) => Attach(w)
    case Busy(_, Running(_)) => End(w, false)
    case Busy(_, _) => Begin(w)
  }

  lemma NextEnabled(s: State, w: nat)
    requires Absent(s) && Taken(s) && w < |s.workers| && WorkerWork(s.workers[w]) > 0
    requires s.mute.None? || s.workers[w].phase.Idle? || !s.workers[w].phase.stage.Took?
    ensures Advances(NextOf(s, w)) && Enabled(s, NextOf(s, w))
  {
    if s.workers[w].phase.Busy? {
      OwnerExists(s, w);
    }
  }

  lemma NextWorks(s: State, w: nat)
    requires w < |s.workers| && Enabled(s, NextOf(s, w)) && Taken(s)
    ensures Work(Do(s, NextOf(s, w)).workers) + 1 == Work(s.workers)
  {
    var t := Do(s, NextOf(s, w));
    assert t.workers == s.workers[w := t.workers[w]];
    assert WorkerWork(t.workers[w]) + 1 == WorkerWork(s.workers[w]);
    WorkUpdate(s.workers, w, t.workers[w]);
  }

  /** As long as a thread has work some thread can go on. */
  lemma NeverStuck(s: State) returns (l: Label)
    requires Inv(s) && Taken(s) && Work(s.workers) > 0
    ensures Enabled(s, l) && Advances(l) && Work(Do(s, l).workers) + 1 == Work(s.workers)
  {
    hide Lifecycle, Labelled, AllSound, Do, Enabled, Absent;
    var w := WorkSomewhere(s.workers);
    if s.mute.Some? {
      w := s.mute.value;
      assert s.workers[w].phase.Busy? && s.workers[w].phase.stage.Running?;
    }
    NextEnabled(s, w);
    NextWorks(s, w);
    l := NextOf(s, w);
  }

  // ------------------------------------------------- continuing a run

  /** The second run goes on where the first one ends. */
  ghost predicate Continues(states: seq<State>, labels: seq<Label>, states': seq<State>, labels': seq<Label>) {
    Execution(states', labels') && states <= states' && labels <= labels'
  }

  ghost predicate AllAdvance(labels: seq<Label>, from: nat) {
    forall i :: from <= i < |labels| ==> Advances(labels[i])
  }

  function Last(states: seq<State>): State
    requires states != []
  {
    states[|states| - 1]
  }

  lemma OneMore(states: seq<State>, labels: seq<Label>, l: Label)
    requires Execution(states, labels) && Enabled(Last(states), l)
    ensures Continues(states, labels, states + [Do(Last(states), l)], labels + [l])
  {
    hide Do, Enabled, Init;
    var ss, ls := states + [Do(Last(states), l)], labels + [l];
    forall i | 0 <= i < |ls| ensures Enabled(ss[i], ls[i]) && ss[i + 1] == Do(ss[i], ls[i]) {
      if i < |labels| {
        assert Enabled(states[i], labels[i]) && states[i + 1] == Do(states[i], labels[i]);
      }
    }
  }

  /** From every state of every run the threads can finish all they hold. */
  lemma {:induction false} ThreadsFinish(states: seq<State>, labels: seq<Label>)
    returns (states': seq<State>, labels': seq<Label>)
    requires Execution(states, labels)
    ensures Continues(states, labels, states', labels') && AllAdvance(labels', |labels|)
    ensures Work(Last(states').workers) == 0
    decreases Work(Last(states).workers)
  {
    hide Do, Enabled, Init, Inv, Work, Taken, Advances;
    if Work(Last(states).workers) == 0 {
      return states, labels;
    }
    InvAt(states, labels, |labels|);
    TakenAt(states, labels, |labels|);
    var l := NeverStuck(Last(states));
    OneMore(states, labels, l);
    states', labels' := ThreadsFinish(states + [Do(Last(states), l)], labels + [l]);
    assert labels'[|labels|] == l;
  }

  // ------------------------------------------------- every client gets its answers

  lemma {:induction false} NoWorkNoFlight(workers: seq<Worker>, c: Client)
    requires Work(workers) == 0
    ensures InFlight(workers, c) == []
  {
    if workers != [] {
      NoWorkNoFlight(workers[1..], c);
    }
  }

  lemma {:induction false} HitPrefix(states: seq<State>, labels: seq<Label>, states': seq<State>, labels': seq<Label>,
                                     i: nat, c: Client)
    requires Execution(states, labels) && Continues(states, labels, states', labels') && i <= |labels|
    ensures Hit(states, labels, i, c) == Hit(states', labels', i, c)
  {
    hide Hits;
    if i > 0 {
      HitPrefix(states, labels, states', labels', i - 1, c);
    }
  }

  /** An interruption is never undone. */
  lemma {:induction false} HitStays(states: seq<State>, labels: seq<Label>, i: nat, j: nat, c: Client)
    requires Execution(states, labels) && i <= j <= |labels| && Hit(states, labels, i, c)
    ensures Hit(states, labels, j, c)
  {
    hide Hits;
    if i < j {
      HitStays(states, labels, i, j - 1, c);
    }
  }

  /** The steps that serve the clients: threads finish their queries, and results are delivered. */
  ghost predicate Serves(l: Label, c: Client) {
    Advances(l) || l == Deliver(c)
  }

  ghost predicate AllServe(labels: seq<Label>, from: nat, c: Client) {
    forall i :: from <= i < |labels| ==> Serves(labels[i], c)
  }

  lemma {:induction false} ServedNotHit(states: seq<State>, labels: seq<Label>, from: nat, i: nat, c: Client)
    requires Execution(states, labels) && AllServe(labels, from, c) && from <= i <= |labels|
    requires !Hit(states, labels, from, c)
    ensures !Hit(states, labels, i, c)
  {
    hide Execution, Enabled, Init, Follows;
    if from < i {
      ServedNotHit(states, labels, from, i - 1, c);
      assert Serves(labels[i - 1], c);
    }
  }

  /** What such steps do not change of the client. */
  ghost predicate SameClient(s: State, t: State, c: Client) {
    && c in s.clients && c in t.clients && t.clients[c].quitting == s.clients[c].quitting
    && t.clients[c].pushed == s.clients[c].pushed && t.clients[c].accepted == s.clients[c].accepted
    && t.clients[c].pending == s.clients[c].pending
  }

  lemma ServeKeeps(s: State, l: Label, c: Client)
    requires Enabled(s, l) && Serves(l, c) && c in s.clients
    ensures SameClient(s, Do(s, l), c)
  {
    if l != Deliver(c) {
      UnnamedSame(s, l, c);
    }
  }

  lemma {:induction false} ServedSame(states: seq<State>, labels: seq<Label>, from: nat, i: nat, c: Client)
    requires Execution(states, labels) && AllServe(labels, from, c) && from <= i < |states| && c in states[from].clients
    ensures SameClient(states[from], states[i], c)
  {
    hide Do, Enabled, Serves, Init;
    if from < i {
      ServedSame(states, labels, from, i - 1, c);
      StepAt(states, labels, i);
      assert Serves(labels[i - 1], c);
      ServeKeeps(states[i - 1], labels[i - 1], c);
    }
  }

  /** The client waits for nothing: it has the final result of every query that was accepted. */
  ghost predicate Content(s: State, c: Client) {
    c in s.clients && !s.clients[c].locked && s.clients[c].notes == [] && Finals(s.clients[c].delivered) == s.clients[c].accepted
  }

  lemma ContentWhenDelivered(states: seq<State>, labels: seq<Label>, c: Client)
    requires Execution(states, labels) && Known(Last(states), c) && !Hit(states, labels, |labels|, c)
    requires Work(Last(states).workers) == 0 && Last(states).clients[c].notes == []
    ensures Content(Last(states), c)
  {
    hide Hit, Finals;
    NoWorkNoFlight(Last(states).workers, c);
    AnsweredExactly(states, labels, |labels|, c);
    var u := Last(states).clients[c];
    assert u.delivered + [] == u.delivered;
  }

  lemma OneDelivered(s: State, c: Client)
    requires Enabled(s, Deliver(c))
    ensures var t := Do(s, Deliver(c));
            && t.workers == s.workers && t.listed == s.listed && c in t.clients && !t.clients[c].quitting
            && |t.clients[c].notes| + 1 == |s.clients[c].notes|
  {
  }

  /** All results in the deque of a listed client can be delivered. */
  lemma {:induction false} DequeEmpties(states: seq<State>, labels: seq<Label>, c: Client)
    returns (states': seq<State>, labels': seq<Label>)
    requires Execution(states, labels) && Known(Last(states), c)
    requires c in Last(states).listed && !Last(states).clients[c].quitting
    ensures Continues(states, labels, states', labels') && AllServe(labels', |labels|, c)
    ensures Known(Last(states'), c) && Last(states').workers == Last(states).workers && Last(states').clients[c].notes == []
    decreases |Last(states).clients[c].notes|
  {
    hide Do, Init;
    if Last(states).clients[c].notes == [] {
      return states, labels;
    }
    var l := Deliver(c);
    OneDelivered(Last(states), c);
    OneMore(states, labels, l);
    states', labels' := DequeEmpties(states + [Do(Last(states), l)], labels + [l], c);
    assert labels'[|labels|] == l;
  }

  lemma StaysListed(states: seq<State>, labels: seq<Label>, i: nat, c: Client)
    requires Execution(states, labels) && i < |states| && Known(states[i], c) && !states[i].clients[c].quitting
    ensures c in states[i].listed
  {
    LifeAt(states, labels, i);
  }

  lemma ContinuesOn(s0: seq<State>, l0: seq<Label>, s1: seq<State>, l1: seq<Label>, s2: seq<State>, l2: seq<Label>, c: Client)
    requires Continues(s0, l0, s1, l1) && Continues(s1, l1, s2, l2) && AllAdvance(l1, |l0|) && AllServe(l2, |l1|, c)
    ensures Continues(s0, l0, s2, l2) && AllServe(l1, |l0|, c) && AllServe(l2, |l0|, c)
  {
    hide Execution, Advances;
    forall i | |l0| <= i < |l2| ensures Serves(l2[i], c) {
      if i < |l1| {
        assert l2[i] == l1[i] && Advances(l1[i]);
      }
    }
  }

  /** Whatever has happened, a client that is there and none of whose queries was interrupted
      can be served: the threads finish and its results are delivered, nothing else needs to
      happen, and then it has every answer and is unlocked. */
  lemma CanBeServed(states: seq<State>, labels: seq<Label>, c: Client)
    returns (states': seq<State>, labels': seq<Label>)
    requires Execution(states, labels) && Known(Last(states), c)
    requires c in Last(states).listed && !Hit(states, labels, |labels|, c)
    ensures Continues(states, labels, states', labels') && AllServe(labels', |labels|, c)
    ensures SameClient(Last(states), Last(states'), c) && Content(Last(states'), c)
  {
    hide Hit, Advances, Serves, Content, Init, Work, Follows;
    LifeAt(states, labels, |labels|);
    var s1, l1 := ThreadsFinish(states, labels);
    ContinuesOn(states, labels, s1, l1, s1, l1, c);
    ServedSame(s1, l1, |labels|, |l1|, c);
    StaysListed(s1, l1, |l1|, c);
    states', labels' := DequeEmpties(s1, l1, c);
    ContinuesOn(states, labels, s1, l1, states', labels', c);
    ServedSame(states', labels', |labels|, |labels'|, c);
    HitPrefix(states, labels, states', labels', |labels|, c);
    ServedNotHit(states', labels', |labels|, |labels'|, c);
    ContentWhenDelivered(states', labels', c);
  }

  lemma HitForGood(states: seq<State>, labels: seq<Label>, states': seq<State>, labels': seq<Label>, c: Client)
    requires Execution(states, labels) && Known(Last(states), c) && Hit(states, labels, |labels|, c)
    requires Continues(states, labels, states', labels')
    ensures !Content(Last(states'), c)
  {
    hide Hit, Finals, Follows;
    HitPrefix(states, labels, states', labels', |labels|, c);
    HitStays(states', labels', |labels|, |labels'|, c);
    FateAt(states', labels', |labels'|, c);
  }

  /** And that is the condition: a listed client can be unlocked, now or later, exactly if
      none of its queries was interrupted. */
  lemma ServedExactly(states: seq<State>, labels: seq<Label>, c: Client)
    requires Execution(states, labels) && Known(Last(states), c) && c in Last(states).listed
    ensures !Hit(states, labels, |labels|, c) <==>
              exists states', labels' :: Continues(states, labels, states', labels') && Content(Last(states'), c)
  {
    hide Hit, Content, Init, Follows;
    if !Hit(states, labels, |labels|, c) {
      var states', labels' := CanBeServed(states, labels, c);
    } else {
      forall states', labels' | Continues(states, labels, states', labels') ensures !Content(Last(states'), c) {
        HitForGood(states, labels, states', labels', c);
      }
    }
  }
}
