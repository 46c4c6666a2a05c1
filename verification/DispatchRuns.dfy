/**
  What every run of the dispatch protocol satisfies, at every moment.
 */
module DispatchRuns {
  import opened Wrappers
  import opened Dispatch
  import opened DispatchInvariant
  import opened DispatchTheorems

  lemma {:induction false} InvAt(states: seq<State>, labels: seq<Label>, i: nat)
    requires Execution(states, labels) && i < |states|
    ensures Inv(states[i])
  {
    if i == 0 {
      InitInv(states[0]);
    } else {
      InvAt(states, labels, i - 1);
      StepAt(states, labels, i);
      InvStep(states[i - 1], labels[i - 1]);
    }
  }

  lemma StepAt(states: seq<State>, labels: seq<Label>, i: nat)
    requires Execution(states, labels) && 0 < i < |states|
    ensures Enabled(states[i - 1], labels[i - 1]) && states[i] == Do(states[i - 1], labels[i - 1])
  {
    var k := i - 1;
    assert Enabled(states[k], labels[k]) && states[k + 1] == Do(states[k], labels[k]);
  }

  lemma InitInv(s: State)
    requires Init(s)
    ensures Inv(s)
  {
    forall c ensures InFlight(s.workers, c) == [] {
      NothingInFlight(s.workers, c);
    }
  }

  lemma ViewAt(states: seq<State>, labels: seq<Label>, i: nat, c: Client)
    requires Execution(states, labels) && i < |states| && Known(states[i], c)
    ensures Sound(c, ViewOf(states[i], c))
  {
    InvAt(states, labels, i);
  }

  lemma LabelledAt(states: seq<State>, labels: seq<Label>, i: nat)
    requires Execution(states, labels) && i < |states|
    ensures Labelled(states[i])
  {
    InvAt(states, labels, i);
  }

  lemma LifeAt(states: seq<State>, labels: seq<Label>, i: nat)
    requires Execution(states, labels) && i < |states|
    ensures Lifecycle(states[i])
  {
    InvAt(states, labels, i);
  }

  lemma {:induction false} NothingInFlight(workers: seq<Worker>, c: Client)
    requires forall w :: 0 <= w < |workers| ==> workers[w] == Worker([], Idle)
    ensures InFlight(workers, c) == []
  {
    if workers != [] {
      NothingInFlight(workers[1..], c);
    }
  }

  ghost predicate Known(s: State, c: Client) {
    c in s.clients && c != GLOBAL
  }

  // ------------------------------------------------- one query at a time

  /** At most one query of a client is inside the threads, and an unlocked client
      has neither a query there nor an undelivered result. */
  lemma OneInFlight(states: seq<State>, labels: seq<Label>, i: nat, c: Client)
    requires Execution(states, labels) && i < |states| && Known(states[i], c)
    ensures |InFlight(states[i].workers, c)| <= 1
    ensures !states[i].clients[c].locked ==> InFlight(states[i].workers, c) == [] && states[i].clients[c].notes == []
  {
    ViewAt(states, labels, i, c);
  }

  /** Never do two threads run a query at the same moment. */
  lemma SerialRuns(states: seq<State>, labels: seq<Label>, i: nat, w: nat, w': nat)
    requires Execution(states, labels) && i < |states| && w < |states[i].workers| && w' < |states[i].workers|
    requires states[i].workers[w].phase.Busy? && states[i].workers[w].phase.stage.Running?
    requires states[i].workers[w'].phase.Busy? && states[i].workers[w'].phase.stage.Running?
    ensures w == w'
  {
    InvAt(states, labels, i);
    assert states[i].mute == Some(w) && states[i].mute == Some(w');
  }

  // ------------------------------------------------- order

  /** `queries` is a selection from `pushed`, in the same order and without repetition. */
  ghost predicate InPushOrder(queries: seq<Query>, pushed: seq<Query>) {
    Ascending(queries) && forall q :: q in queries ==> q.number < |pushed| && pushed[q.number] == q
  }

  ghost predicate Ascending(queries: seq<Query>) {
    forall i, j :: 0 <= i < j < |queries| ==> queries[i].number < queries[j].number
  }

  lemma {:induction false} FormedAscending(queries: seq<Query>)
    requires Ascending(queries)
    ensures Ascending(Formed(queries))
    ensures forall q :: q in Formed(queries) ==> q in queries
  {
    if queries != [] {
      var last := |queries| - 1;
      var kept := Formed(queries[..last]);
      FormedAscending(queries[..last]);
      forall i | 0 <= i < |kept| ensures kept[i].number < queries[last].number {
        assert kept[i] in kept;
        assert kept[i] in queries[..last];
      }
    }
  }

  /** The database effects of a client are its accepted, well-formed queries in the
      order it pushed them, each once; only the newest may still be missing. */
  lemma EffectsInPushOrder(states: seq<State>, labels: seq<Label>, i: nat, c: Client)
    requires Execution(states, labels) && i < |states| && Known(states[i], c)
    ensures var s, u := states[i], states[i].clients[c];
            && InPushOrder(Owned(s.effects, c), u.pushed)
            && (Owned(s.effects, c) == Formed(u.accepted)
                || (Owned(s.effects, c) == Formed(Earlier(u.accepted)) && Waiting(InFlight(s.workers, c))))
  {
    ViewAt(states, labels, i, c);
    EffectsOf(c, ViewOf(states[i], c));
  }

  lemma EffectsOf(c: Client, v: View)
    requires Books(c, v.conn.pushed, v.conn.pending, v.conn.accepted)
    requires Effected(v.conn.accepted, v.flight, v.effects)
    ensures InPushOrder(v.effects, v.conn.pushed)
  {
    FormedAscending(v.conn.accepted);
    FormedAscending(Earlier(v.conn.accepted));
    forall q | q in v.effects ensures q in v.conn.accepted {
    }
  }

  /** The final results a client has received answer its accepted queries in the
      order it pushed them, each once; all but the newest have been answered, and
      all of them when the client is unlocked. */
  lemma AnswersInPushOrder(states: seq<State>, labels: seq<Label>, i: nat, c: Client)
    requires Execution(states, labels) && i < |states| && Known(states[i], c)
    ensures var u := states[i].clients[c];
            && InPushOrder(Finals(u.delivered), u.pushed)
            && Earlier(u.accepted) <= Finals(u.delivered) <= u.accepted
            && (!u.locked ==> Finals(u.delivered) == u.accepted)
  {
    ViewAt(states, labels, i, c);
    DeliveredPart(states[i].clients[c], InFlight(states[i].workers, c));
    PrefixInOrder(c, states[i].clients[c], Finals(states[i].clients[c].delivered));
  }

  lemma PrefixInOrder(c: Client, u: Conn, queries: seq<Query>)
    requires Books(c, u.pushed, u.pending, u.accepted) && queries <= u.accepted
    ensures InPushOrder(queries, u.pushed)
  {
    forall q | q in queries ensures q in u.accepted {
    }
  }

  lemma DeliveredPart(u: Conn, flight: seq<Slot>)
    requires Progress(u.locked, u.accepted, u.delivered, u.notes, flight)
    ensures Earlier(u.accepted) <= Finals(u.delivered) <= u.accepted
    ensures !u.locked ==> Finals(u.delivered) == u.accepted
  {
    FinalsConcat(u.delivered, u.notes);
    if u.locked && flight == [] && AnswerReady(u.notes) {
      var last := |u.notes| - 1;
      assert u.notes == u.notes[..last] + [u.notes[last]];
      FinalsAppend(u.notes[..last], u.notes[last]);
    }
  }

  /** In what a client has received, every final result is directly preceded by the
      partial results of the same query, numbered from 1 without a gap, and by nothing else. */
  lemma BatchesPrecedeAnswer(states: seq<State>, labels: seq<Label>, i: nat, c: Client, n: nat) returns (start: nat)
    requires Execution(states, labels) && i < |states| && Known(states[i], c)
    requires n < |states[i].clients[c].delivered| && states[i].clients[c].delivered[n].Final?
    ensures var got := states[i].clients[c].delivered;
            && start <= n && (start > 0 ==> got[start - 1].Final?)
            && forall j :: start <= j < n ==> got[j] == Partial(got[n].query, j - start + 1)
  {
    ViewAt(states, labels, i, c);
    var u := states[i].clients[c];
    FramedPrefix(u.delivered, u.notes);
    start := BlockStart(u.delivered, n);
  }

  lemma FramedPrefix(a: seq<Note>, b: seq<Note>)
    requires Framed(a + b)
    ensures Framed(a)
  {
    forall j: nat | j < |a| ensures LinkedAt(a, j) {
      assert LinkedAt(a + b, j);
      assert Before(a, j) == Before(a + b, j);
    }
  }

  lemma BlockStart(notes: seq<Note>, n: nat) returns (start: nat)
    requires Framed(notes) && n < |notes| && notes[n].Final?
    ensures start <= n && (start > 0 ==> notes[start - 1].Final?)
    ensures forall j :: start <= j < n ==> notes[j] == Partial(notes[n].query, j - start + 1)
  {
    assert LinkedAt(notes, n);
    start := n;
    if n > 0 && notes[n - 1].Partial? {
      BlockOf(notes, n - 1);
      start := n - notes[n - 1].batch;
    }
  }

  lemma {:induction false} BlockOf(notes: seq<Note>, n: nat)
    requires Framed(notes) && n < |notes| && notes[n].Partial?
    ensures 1 <= notes[n].batch <= n + 1
    ensures var start := n + 1 - notes[n].batch;
            && (start > 0 ==> notes[start - 1].Final?)
            && forall j :: start <= j <= n ==> notes[j] == Partial(notes[n].query, j - start + 1)
  {
    assert LinkedAt(notes, n);
    if notes[n].batch > 1 {
      BlockOf(notes, n - 1);
    }
  }

  // ------------------------------------------------- the end of a client

  /** No thread ever holds, and no main-loop list ever names, a deleted client. */
  lemma NoDanglingOwner(states: seq<State>, labels: seq<Label>, i: nat, c: Client)
    requires Execution(states, labels) && i < |states|
    requires InFlight(states[i].workers, c) != [] || c in states[i].listed || c in states[i].awaiting
    ensures Live(states[i], c)
  {
    InvAt(states, labels, i);
    if Known(states[i], c) {
      ViewAt(states, labels, i, c);
    }
  }

  /** A client is handed to the Reducer, waits to be, or is deleted: in all at most once. */
  lemma LeavesOnce(states: seq<State>, labels: seq<Label>, i: nat, c: Client)
    requires Execution(states, labels) && i < |states|
    ensures Exits(states[i], c) <= 1
  {
    InvAt(states, labels, i);
    var s := states[i];
    if !Known(s, c) {
      assert c !in s.awaiting && c !in s.reducer && c !in s.freed;
    }
  }

  /** GetPending never takes the front of an empty deque, although its test lets
      every quitting client through. */
  lemma EligibleHasPending(states: seq<State>, labels: seq<Label>, i: nat, c: Client)
    requires Execution(states, labels) && i < |states| && c in states[i].clients && Eligible(states[i], c)
    ensures states[i].clients[c].pending != [] && (c != GLOBAL ==> !states[i].clients[c].locked)
  {
    InvAt(states, labels, i);
  }

  /** What a quitting client keeps for ever. */
  ghost predicate Frozen(u: Conn, u': Conn) {
    u'.quitting && u'.locked == u.locked && u'.accepted == u.accepted && u'.pushed == u.pushed
  }

  lemma QuitStep(states: seq<State>, labels: seq<Label>, j: nat, c: Client)
    requires Execution(states, labels) && 0 < j < |states|
    requires Known(states[j - 1], c) && states[j - 1].clients[c].quitting
    ensures Known(states[j], c) && Frozen(states[j - 1].clients[c], states[j].clients[c])
  {
    LifeAt(states, labels, j - 1);
    LabelledAt(states, labels, j - 1);
    StepAt(states, labels, j);
    QuitFrame(states[j - 1], labels[j - 1], c);
  }

  lemma {:induction false} QuitStays(states: seq<State>, labels: seq<Label>, i: nat, j: nat, c: Client)
    requires Execution(states, labels) && i <= j < |states| && Known(states[i], c) && states[i].clients[c].quitting
    ensures Known(states[j], c) && Frozen(states[i].clients[c], states[j].clients[c])
  {
    if i < j {
      QuitStays(states, labels, i, j - 1, c);
      QuitStep(states, labels, j, c);
    }
  }

  /** Once a client is with the Reducer no thread holds one of its queries, then or
      ever after, and none is ever handed to a thread again. */
  lemma SettledForGood(states: seq<State>, labels: seq<Label>, i: nat, j: nat, c: Client)
    requires Execution(states, labels) && i <= j < |states|
    requires c in states[i].reducer || c in states[i].freed
    ensures Known(states[i], c) && Known(states[j], c) && InFlight(states[j].workers, c) == []
    ensures states[j].clients[c].accepted == states[i].clients[c].accepted
    ensures c !in states[j].listed
  {
    LifeAt(states, labels, i);
    LifeAt(states, labels, j);
    QuitStays(states, labels, i, j, c);
    ViewAt(states, labels, j, c);
  }

  /** The fate of a client is sealed by its lock at the moment it is disconnected:
      it goes to the Reducer exactly if it was unlocked. A client disconnected
      while one of its queries is in flight stays among those awaiting exit for
      ever, because results are only delivered to listed clients. */
  lemma DisconnectFate(states: seq<State>, labels: seq<Label>, i: nat, j: nat, c: Client)
    requires Execution(states, labels) && i < j < |states|
    requires labels[i] == Disconnect(c) && c in states[i].listed
    ensures (c in states[j].reducer || c in states[j].freed) <==> !states[i].clients[c].locked
    ensures c in states[j].awaiting <==> states[i].clients[c].locked
  {
    LifeAt(states, labels, i);
    LifeAt(states, labels, j);
    StepAt(states, labels, i + 1);
    QuitStays(states, labels, i + 1, j, c);
    assert Exits(states[j], c) == 1;
  }

  /** ForceExits never finds anybody it may hand over. */
  lemma NobodyForcedOut(states: seq<State>, labels: seq<Label>, i: nat, n: nat)
    requires Execution(states, labels) && i < |states|
    ensures !Enabled(states[i], ForceExit(n))
  {
    LifeAt(states, labels, i);
    assert n < |states[i].awaiting| ==> states[i].awaiting[n] in states[i].awaiting;
  }

  /** And it does happen: for any number of threads and any client, a run in which the
      client is disconnected while its query waits for a thread. */
  lemma Stranded(n: nat, c: Client) returns (states: seq<State>, labels: seq<Label>)
    requires n > 0 && c != GLOBAL
    ensures Execution(states, labels) && AllByPick(states, labels) && |states[0].workers| == n
    ensures labels == [AddUser(c), Push(c, Plain, true), Post(c, 0), Disconnect(c)]
    ensures c in states[3].listed && states[3].clients[c].locked && c in states[4].awaiting
  {
    hide Init, Do, Enabled, ByPick;
    var s0 := Arrives(n, c);
    var s1 := Do(s0, AddUser(c));
    OnePending(s1, c);
    var s2 := Do(s1, Push(c, Plain, true));
    LockedByPost(s2, c);
    var s3 := Do(s2, Post(c, 0));
    LeftWaiting(s3, c);
    var s4 := Do(s3, Disconnect(c));
    states, labels := [s0, s1, s2, s3, s4], [AddUser(c), Push(c, Plain, true), Post(c, 0), Disconnect(c)];
    FourSteps(states, labels);
  }

  lemma Arrives(n: nat, c: Client) returns (s: State)
    requires n > 0 && c != GLOBAL
    ensures Init(s) && |s.workers| == n && Enabled(s, AddUser(c)) && ByPick(s, AddUser(c))
    ensures var t := Do(s, AddUser(c));
            Live(t, c) && t.clients[c] == NEW_CONN && c in t.listed && |t.workers| == n && !IsBusy(t.workers[0])
  {
    s := State(map[GLOBAL := NEW_CONN], {}, [], [], [], seq(n, _ => Worker([], Idle)), None, []);
  }

  lemma OnePending(s: State, c: Client)
    requires Live(s, c) && s.clients[c] == NEW_CONN && c in s.listed && c != GLOBAL
    requires s.workers != [] && !IsBusy(s.workers[0])
    ensures Enabled(s, Push(c, Plain, true)) && ByPick(s, Push(c, Plain, true))
    ensures var t := Do(s, Push(c, Plain, true));
            Enabled(t, Post(c, 0)) && ByPick(t, Post(c, 0)) && c in t.listed && !t.clients[c].quitting
  {
  }

  lemma LockedByPost(s: State, c: Client)
    requires Enabled(s, Post(c, 0)) && c != GLOBAL && c in s.listed && !s.clients[c].quitting
    ensures var t := Do(s, Post(c, 0));
            && c in t.listed && c in t.clients && t.clients[c].locked && !t.clients[c].quitting
            && Enabled(t, Disconnect(c)) && ByPick(t, Disconnect(c))
  {
  }

  lemma LeftWaiting(s: State, c: Client)
    requires Enabled(s, Disconnect(c)) && c != GLOBAL && s.clients[c].locked && !s.clients[c].quitting
    ensures c in Do(s, Disconnect(c)).awaiting
  {
  }

  lemma FourSteps(states: seq<State>, labels: seq<Label>)
    requires |states| == 5 && |labels| == 4 && Init(states[0])
    requires Enabled(states[0], labels[0]) && states[1] == Do(states[0], labels[0]) && ByPick(states[0], labels[0])
    requires Enabled(states[1], labels[1]) && states[2] == Do(states[1], labels[1]) && ByPick(states[1], labels[1])
    requires Enabled(states[2], labels[2]) && states[3] == Do(states[2], labels[2]) && ByPick(states[2], labels[2])
    requires Enabled(states[3], labels[3]) && states[4] == Do(states[3], labels[3]) && ByPick(states[3], labels[3])
    ensures Execution(states, labels) && AllByPick(states, labels)
  {
    hide Init, Enabled, Do, ByPick;
  }
}
