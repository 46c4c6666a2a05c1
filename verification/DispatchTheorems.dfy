/**
  The invariant holds in every state of every run, and what follows from it.
 */
module DispatchTheorems {
  import opened Wrappers
  import opened Dispatch
  import opened Sequences
  import opened DispatchInvariant

  // ------------------------------------------------- frames

  /** The client a label is about; nobody for Apply. */
  function Actor(s: State, l: Label): Option<Client>
    requires Enabled(s, l)
  {
    match l
    case AddUser(c) => Some(c)
    case Push(c, _, _) => Some(c)
    case Post(c, _) => Some(c)
    case Refuse(c) => Some(c)
    case Deliver(c) => Some(c)
    case Disconnect(c) => Some(c)
    case ForceExit(i) => Some(s.awaiting[i])
    case Apply => None
    case Take(w) => Some(s.workers[w].queue[0].owner)
    case Begin(w) => Some(s.workers[w].phase.query.owner)
    case Batch(w) => Some(s.workers[w].phase.query.owner)
    case End(w, _) => Some(s.workers[w].phase.query.owner)
    case Attach(w) => Some(s.workers[w].phase.query.owner)
  }

  lemma TakeSlots(k: Worker, c: Client)
    requires k.phase.Idle? && k.queue != []
    ensures var k' := Worker(k.queue[1..], Busy(k.queue[0], Took));
            if k.queue[0].owner != c then Slots(k', c) == Slots(k, c)
            else Slots(k, c) == [Slot(k.queue[0], Queued)] + QueueSlots(k.queue[1..], c)
                 && Slots(k', c) == [Slot(k.queue[0], Took)] + QueueSlots(k.queue[1..], c)
  {
  }

  lemma PostSlots(k: Worker, q: Query, c: Client)
    ensures Slots(k.(queue := k.queue + [q]), c) == Slots(k, c) + if q.owner == c then [Slot(q, Queued)] else []
  {
    QueueSlotsAppend(k.queue, q, c);
  }

  /** A step leaves the threads' queries of everybody else alone. */
  lemma FlightFrame(s: State, l: Label, c: Client)
    requires Labelled(s) && Enabled(s, l) && Actor(s, l) != Some(c)
    ensures InFlight(Do(s, l).workers, c) == InFlight(s.workers, c)
  {
    hide InFlight, Slots, QueueSlots;
    match l
    case Post(d, w) =>
      var k, q := s.workers[w], s.clients[d].pending[0];
      PostSlots(k, q, c);
      InFlightUpdate(s.workers, w, k.(queue := k.queue + [q]), c);
    case Take(w) =>
      var k := s.workers[w];
      TakeSlots(k, c);
      InFlightUpdate(s.workers, w, Worker(k.queue[1..], Busy(k.queue[0], Took)), c);
    case Begin(w) => StageFrame(s, w, Busy(s.workers[w].phase.query, Running(0)), c);
    case Batch(w) => StageFrame(s, w, Busy(s.workers[w].phase.query, Running(s.workers[w].phase.stage.batches + 1)), c);
    case End(w, i) => StageFrame(s, w, Busy(s.workers[w].phase.query, Ran(i)), c);
    case Attach(w) => StageFrame(s, w, Idle, c);
    case _ =>
  }

  lemma StageFrame(s: State, w: nat, phase: Phase, c: Client)
    requires w < |s.workers| && PhaseSlots(s.workers[w].phase, c) == PhaseSlots(phase, c)
    ensures InFlight(s.workers[w := s.workers[w].(phase := phase)], c) == InFlight(s.workers, c)
  {
    InFlightUpdate(s.workers, w, s.workers[w].(phase := phase), c);
  }

  lemma EffectsFrame(s: State, l: Label, c: Client)
    requires Enabled(s, l) && Actor(s, l) != Some(c)
    ensures Owned(Do(s, l).effects, c) == Owned(s.effects, c)
  {
    if l.Begin? {
      OwnedAppend(s.effects, s.workers[l.w].phase.query, c);
      assert s.effects + [] == s.effects;
    }
  }

  // ------------------------------------------------- one step keeps the invariant

  /** The query a thread works on is the only one of its owner inside any thread. */
  lemma HeldAlone(s: State, w: nat, c: Client)
    requires Stands(s, w) && s.workers[w].phase.query.owner == c && |InFlight(s.workers, c)| <= 1
    ensures var k := s.workers[w];
            InFlight(s.workers, c) == [Slot(k.phase.query, k.phase.stage)] == Slots(k, c)
  {
    var k := s.workers[w];
    InFlightUpdate(s.workers, w, k, c);
    assert |Slots(k, c)| == 1 + |QueueSlots(k.queue, c)|;
  }

  /** The same for the query at the head of a thread's queue. */
  lemma HeadAlone(s: State, w: nat, c: Client)
    requires Enabled(s, Take(w)) && s.workers[w].queue[0].owner == c && |InFlight(s.workers, c)| <= 1
    ensures var k := s.workers[w];
            InFlight(s.workers, c) == [Slot(k.queue[0], Queued)] == Slots(k, c)
  {
    var k := s.workers[w];
    TakeSlots(k, c);
    InFlightUpdate(s.workers, w, k, c);
    assert |Slots(k, c)| == 1 + |QueueSlots(k.queue[1..], c)|;
  }

  /** Once a client is quitting, no step changes its lock or hands over another query of it. */
  lemma QuitFrame(s: State, l: Label, c: Client)
    requires Lifecycle(s) && Labelled(s) && Enabled(s, l)
    requires c in s.clients && c != GLOBAL && s.clients[c].quitting
    ensures c in Do(s, l).clients
    ensures var u, u' := s.clients[c], Do(s, l).clients[c];
            u'.quitting && u'.locked == u.locked && u'.accepted == u.accepted && u'.pushed == u.pushed
  {
    if l.Attach? {
      QuitAttach(s, l.w, c);
    } else if l.Take? || l.Begin? || l.Batch? || l.End? {
      QuitWorker(s, l, c);
    } else {
      QuitMain(s, l, c);
    }
  }

  lemma QuitMain(s: State, l: Label, c: Client)
    requires Lifecycle(s) && Enabled(s, l)
    requires !l.Take? && !l.Begin? && !l.Batch? && !l.End? && !l.Attach?
    requires c in s.clients && c != GLOBAL && s.clients[c].quitting
    ensures c in Do(s, l).clients
    ensures var u, u' := s.clients[c], Do(s, l).clients[c];
            u'.quitting && u'.locked == u.locked && u'.accepted == u.accepted && u'.pushed == u.pushed
  {
    assert c !in s.listed && !Eligible(s, c);
  }

  lemma QuitWorker(s: State, l: Label, c: Client)
    requires Enabled(s, l) && (l.Take? || l.Begin? || l.Batch? || l.End?) && c in s.clients
    ensures c in Do(s, l).clients
    ensures var u, u' := s.clients[c], Do(s, l).clients[c];
            u'.quitting == u.quitting && u'.locked == u.locked && u'.accepted == u.accepted && u'.pushed == u.pushed
  {
  }

  lemma QuitAttach(s: State, w: nat, c: Client)
    requires Labelled(s) && Enabled(s, Attach(w)) && c in s.clients && c != GLOBAL
    ensures c in Do(s, Attach(w)).clients
    ensures var u, u' := s.clients[c], Do(s, Attach(w)).clients[c];
            u'.quitting == u.quitting && u'.locked == u.locked && u'.accepted == u.accepted && u'.pushed == u.pushed
  {
    assert Proper(s.workers[w].phase.query);
  }

  lemma OnceEach(xs: seq<Client>)
    requires forall c :: multiset(xs)[c] <= 1
    ensures NoDuplicates(xs)
  {
    forall i, j | 0 <= i < j < |xs| ensures xs[i] != xs[j] {
      var a, b := xs[..j], xs[j + 1..];
      assert xs == a + [xs[j]] + b;
      assert multiset(xs)[xs[j]] == multiset(a)[xs[j]] + 1 + multiset(b)[xs[j]];
      assert xs[j] !in multiset(a);
      assert a[i] in multiset(a);
    }
  }

  lemma LifecycleStep(s: State, l: Label)
    requires Lifecycle(s) && Labelled(s) && Enabled(s, l)
    ensures Lifecycle(Do(s, l))
  {
    match l
    case AddUser(c) => AddUserLifecycle(s, c);
    case Apply => ApplyLifecycle(s);
    case Disconnect(c) => DisconnectLifecycle(s, c);
    case ForceExit(i) => assert false;
    case _ => LifecycleStays(s, l);
  }

  lemma LifecycleStays(s: State, l: Label)
    requires Lifecycle(s) && Labelled(s) && Enabled(s, l)
    requires !l.AddUser? && !l.Apply? && !l.Disconnect? && !l.ForceExit?
    ensures Lifecycle(Do(s, l))
  {
    var t := Do(s, l);
    StaysPut(s, l);
    forall c | c in s.clients && c != GLOBAL && s.clients[c].quitting
      ensures t.clients[c].locked == s.clients[c].locked
    {
      QuitFrame(s, l, c);
    }
    LifecycleFrame(s, t);
  }

  lemma StaysPut(s: State, l: Label)
    requires Enabled(s, l) && !l.AddUser? && !l.Apply? && !l.Disconnect? && !l.ForceExit?
    ensures var t := Do(s, l);
            && t.awaiting == s.awaiting && t.reducer == s.reducer && t.freed == s.freed && t.listed == s.listed
            && t.clients.Keys == s.clients.Keys
            && forall c :: c in s.clients ==> t.clients[c].quitting == s.clients[c].quitting
  {
  }

  lemma AddUserLifecycle(s: State, c: Client)
    requires Lifecycle(s) && c !in s.clients
    ensures Lifecycle(Do(s, AddUser(c)))
  {
    assert Exits(s, c) == 0;
  }

  lemma LifecycleFrame(s: State, t: State)
    requires Lifecycle(s)
    requires t.awaiting == s.awaiting && t.reducer == s.reducer && t.freed == s.freed && t.listed == s.listed
    requires t.clients.Keys == s.clients.Keys
    requires forall c :: c in s.clients ==> t.clients[c].quitting == s.clients[c].quitting
    requires forall c :: c in s.clients && c != GLOBAL && s.clients[c].quitting ==> t.clients[c].locked == s.clients[c].locked
    ensures Lifecycle(t)
  {
    forall c ensures Exits(t, c) == Exits(s, c) {
    }
  }

  lemma DisconnectLifecycle(s: State, c: Client)
    requires Lifecycle(s) && Live(s, c)
    ensures Lifecycle(Do(s, Disconnect(c)))
  {
    if !s.clients[c].quitting && c != GLOBAL {
      DisconnectExits(s, c);
      NewlyQuitting(s, Do(s, Disconnect(c)), c);
    }
  }

  lemma DisconnectExits(s: State, c: Client)
    requires Enabled(s, Disconnect(c)) && !s.clients[c].quitting && c != GLOBAL
    ensures var t, u := Do(s, Disconnect(c)), s.clients[c];
            && t.clients == s.clients[c := u.(quitting := true)] && t.listed == s.listed - {c} && t.freed == s.freed
            && t.awaiting == (if u.locked then s.awaiting + [c] else s.awaiting)
            && t.reducer == (if u.locked then s.reducer else s.reducer + [c])
            && forall d :: Exits(t, d) == Exits(s, d) + if d == c then 1 else 0
  {
    var t := Do(s, Disconnect(c));
    forall d ensures Exits(t, d) == Exits(s, d) + if d == c then 1 else 0 {
    }
  }

  lemma NewlyQuitting(s: State, t: State, c: Client)
    requires Lifecycle(s) && c in s.clients && !s.clients[c].quitting && c != GLOBAL
    requires t.clients == s.clients[c := s.clients[c].(quitting := true)] && t.listed == s.listed - {c} && t.freed == s.freed
    requires t.awaiting == if s.clients[c].locked then s.awaiting + [c] else s.awaiting
    requires t.reducer == if s.clients[c].locked then s.reducer else s.reducer + [c]
    requires forall d :: Exits(t, d) == Exits(s, d) + if d == c then 1 else 0
    ensures Lifecycle(t)
  {
  }

  lemma ApplyLifecycle(s: State)
    requires Lifecycle(s)
    ensures Lifecycle(Do(s, Apply))
    ensures Do(s, Apply).freed == s.freed + s.reducer
  {
    forall c ensures multiset(s.reducer)[c] <= 1 {
      if c in s.reducer {
        assert Exits(s, c) <= 1;
      }
    }
    OnceEach(s.reducer);
    var t := Do(s, Apply);
    assert t.freed == s.freed + s.reducer;
    assert multiset(t.freed) == multiset(s.freed) + multiset(s.reducer);
    forall c ensures Exits(t, c) == Exits(s, c) {
    }
  }

  lemma LabelledMain(s: State, l: Label)
    requires Labelled(s) && Enabled(s, l) && (l.AddUser? || l.Push? || l.Post? || l.Refuse? || l.Deliver? || l.Disconnect?)
    ensures Labelled(Do(s, l))
  {
  }

  lemma LabelledWorker(s: State, l: Label)
    requires Labelled(s) && Enabled(s, l) && (l.Take? || l.Begin? || l.Batch? || l.End? || l.Attach?)
    ensures Labelled(Do(s, l))
  {
    if l.Take? {
      LabelledTake(s, l.w);
    } else if l.Attach? {
      LabelledAttach(s, l.w);
    } else {
      LabelledHeld(s, l);
    }
  }

  lemma LabelledTake(s: State, w: nat)
    requires Labelled(s) && Enabled(s, Take(w))
    ensures Labelled(Do(s, Take(w)))
  {
  }

  lemma LabelledHeld(s: State, l: Label)
    requires Labelled(s) && Enabled(s, l) && (l.Begin? || l.Batch? || l.End?)
    ensures Labelled(Do(s, l))
  {
  }

  lemma LabelledAttach(s: State, w: nat)
    requires Labelled(s) && Enabled(s, Attach(w))
    ensures Labelled(Do(s, Attach(w)))
  {
  }

  lemma LabelledStep(s: State, l: Label)
    requires Labelled(s) && Enabled(s, l)
    ensures Labelled(Do(s, l))
  {
    if l.ForceExit? || l.Apply? {
    } else if l.Take? || l.Begin? || l.Batch? || l.End? || l.Attach? {
      LabelledWorker(s, l);
    } else {
      LabelledMain(s, l);
    }
  }

  lemma ExclusiveStep(s: State, l: Label)
    requires Exclusive(s) && Enabled(s, l)
    ensures Exclusive(Do(s, l))
  {
  }

  lemma AbsentStep(s: State, l: Label)
    requires Absent(s) && Labelled(s) && Enabled(s, l)
    ensures Absent(Do(s, l))
  {
    var t := Do(s, l);
    forall c | c !in t.clients ensures InFlight(t.workers, c) == [] && Owned(t.effects, c) == [] {
      if Actor(s, l) == Some(c) {
        assert l.Take?;
        InFlightUpdate(s.workers, l.w, s.workers[l.w], c);
        assert false;
      }
      FlightFrame(s, l, c);
      EffectsFrame(s, l, c);
    }
  }

  lemma ConnFrame(s: State, l: Label, c: Client)
    requires Enabled(s, l) && Actor(s, l) != Some(c) && c in Do(s, l).clients
    ensures c in s.clients && Do(s, l).clients[c] == s.clients[c]
  {
  }

  lemma SoundStep(s: State, l: Label, c: Client)
    requires Inv(s) && Enabled(s, l) && c in Do(s, l).clients && c != GLOBAL
    ensures Sound(c, ViewOf(Do(s, l), c))
  {
    hide Sound;
    if Actor(s, l) != Some(c) {
      BystanderView(s, l, c);
      assert Sound(c, ViewOf(s, c));
    } else if l.AddUser? {
      NewcomerSound(s, c);
    } else {
      ActorSound(s, l, c);
    }
  }

  lemma BystanderView(s: State, l: Label, c: Client)
    requires Labelled(s) && Enabled(s, l) && Actor(s, l) != Some(c) && c in Do(s, l).clients
    ensures c in s.clients && ViewOf(Do(s, l), c) == ViewOf(s, c)
  {
    ConnFrame(s, l, c);
    FlightFrame(s, l, c);
    EffectsFrame(s, l, c);
  }

  lemma NewcomerSound(s: State, c: Client)
    requires Absent(s) && Enabled(s, AddUser(c))
    ensures Sound(c, ViewOf(Do(s, AddUser(c)), c))
  {
    assert ViewOf(Do(s, AddUser(c)), c) == View(NEW_CONN, [], []);
    NothingSound(c);
  }

  /** A step of, or for, a client that was there before. */
  lemma ActorSound(s: State, l: Label, c: Client)
    requires Inv(s) && Enabled(s, l) && Actor(s, l) == Some(c) && c in s.clients && c != GLOBAL && !l.AddUser?
    ensures c in Do(s, l).clients && Sound(c, ViewOf(Do(s, l), c))
  {
    hide Sound;
    assert Sound(c, ViewOf(s, c));
    SoundFlight(c, ViewOf(s, c));
    var m := StepMove(s, l, c);
    MoveKeeps(c, ViewOf(s, c), m);
  }

  lemma SoundFlight(c: Client, v: View)
    requires Sound(c, v)
    ensures |v.flight| <= 1 && (!v.conn.locked ==> v.flight == [])
  {
  }

  // ------------------------------------------------- what a step makes of a view

  /** The move that a label makes on the view of its client. */
  lemma StepMove(s: State, l: Label, c: Client) returns (m: Move)
    requires Enabled(s, l) && Lifecycle(s) && Labelled(s)
    requires Actor(s, l) == Some(c) && c in s.clients && c != GLOBAL && !l.AddUser?
    requires |InFlight(s.workers, c)| <= 1 && (!s.clients[c].locked ==> InFlight(s.workers, c) == [])
    ensures c in Do(s, l).clients && Fits(c, ViewOf(s, c), m) && ViewOf(Do(s, l), c) == After(c, ViewOf(s, c), m)
    ensures m == Staging(Ran(true)) <==> l.End? && l.interrupted
  {
    match l
    case Post(_, w) => m := PostMove(s, w, c);
    case Take(w) => m := TakeMove(s, w, c);
    case Begin(w) => m := BeginMove(s, w, c);
    case Batch(w) => m := BatchMove(s, w, c);
    case End(w, i) => m := EndMove(s, w, i, c);
    case Attach(w) => m := AttachMove(s, w, c);
    case _ => m := MainMove(s, l, c);
  }

  lemma MainMove(s: State, l: Label, c: Client) returns (m: Move)
    requires Enabled(s, l) && Lifecycle(s) && Actor(s, l) == Some(c) && c in s.clients && c != GLOBAL
    requires l.Push? || l.Refuse? || l.Deliver? || l.Disconnect? || l.ForceExit?
    ensures c in Do(s, l).clients && Fits(c, ViewOf(s, c), m) && ViewOf(Do(s, l), c) == After(c, ViewOf(s, c), m)
    ensures !m.Staging?
  {
    var u := s.clients[c];
    match l
    case Push(_, flags, formed) => m := if u.quitting then Staying else Pushing(Query(c, |u.pushed|, flags, formed));
    case Refuse(_) => m := Refusing;
    case Deliver(_) => m := Delivering;
    case Disconnect(_) => m := if u.quitting then Staying else Quitting;
    case ForceExit(_) => m := Staying;
  }

  lemma PostMove(s: State, w: nat, c: Client) returns (m: Move)
    requires Enabled(s, Post(c, w)) && Lifecycle(s) && Labelled(s) && c != GLOBAL
    requires !s.clients[c].locked ==> InFlight(s.workers, c) == []
    ensures var l := Post(c, w);
            c in Do(s, l).clients && Fits(c, ViewOf(s, c), m) && ViewOf(Do(s, l), c) == After(c, ViewOf(s, c), m)
    ensures !m.Staging?
  {
    PostDone(s, w, c);
    PostFlight(s, w, c);
    m := Posting;
  }

  lemma PostDone(s: State, w: nat, c: Client)
    requires Enabled(s, Post(c, w)) && c != GLOBAL
    ensures var t, k, u := Do(s, Post(c, w)), s.workers[w], s.clients[c];
            && t.workers == s.workers[w := k.(queue := k.queue + [u.pending[0]])] && t.effects == s.effects
            && c in t.clients
            && t.clients[c] == u.(locked := true, pending := u.pending[1..], accepted := u.accepted + [u.pending[0]])
  {
  }

  lemma PostFlight(s: State, w: nat, c: Client)
    requires Enabled(s, Post(c, w)) && Labelled(s) && InFlight(s.workers, c) == []
    ensures var k, q := s.workers[w], s.clients[c].pending[0];
            InFlight(s.workers[w := k.(queue := k.queue + [q])], c) == [Slot(q, Queued)]
  {
    var k, q := s.workers[w], s.clients[c].pending[0];
    assert q.owner == c;
    PostSlots(k, q, c);
    InFlightUpdate(s.workers, w, k.(queue := k.queue + [q]), c);
    assert [] + [Slot(q, Queued)] == [Slot(q, Queued)];
  }

  lemma TakeMove(s: State, w: nat, c: Client) returns (m: Move)
    requires Enabled(s, Take(w)) && Actor(s, Take(w)) == Some(c) && c in s.clients && |InFlight(s.workers, c)| <= 1
    ensures var l := Take(w);
            c in Do(s, l).clients && Fits(c, ViewOf(s, c), m) && ViewOf(Do(s, l), c) == After(c, ViewOf(s, c), m)
    ensures m == Staging(Took)
  {
    HeadAlone(s, w, c);
    TakeSlots(s.workers[w], c);
    InFlightUpdate(s.workers, w, Do(s, Take(w)).workers[w], c);
    m := Staging(Took);
  }

  lemma BeginMove(s: State, w: nat, c: Client) returns (m: Move)
    requires Enabled(s, Begin(w)) && Actor(s, Begin(w)) == Some(c) && c in s.clients && |InFlight(s.workers, c)| <= 1
    ensures var l := Begin(w);
            c in Do(s, l).clients && Fits(c, ViewOf(s, c), m) && ViewOf(Do(s, l), c) == After(c, ViewOf(s, c), m)
    ensures m == Staging(Running(0))
  {
    var q := s.workers[w].phase.query;
    HeldAlone(s, w, c);
    HeldReplaced(s, w, Busy(q, Running(0)), c);
    OwnedAppend(s.effects, q, c);
    assert s.effects + [] == s.effects;
    m := Staging(Running(0));
  }

  lemma BatchMove(s: State, w: nat, c: Client) returns (m: Move)
    requires Enabled(s, Batch(w)) && Actor(s, Batch(w)) == Some(c) && c in s.clients && |InFlight(s.workers, c)| <= 1
    ensures var l := Batch(w);
            c in Do(s, l).clients && Fits(c, ViewOf(s, c), m) && ViewOf(Do(s, l), c) == After(c, ViewOf(s, c), m)
    ensures !m.Staging?
  {
    hide After, Do, InFlight, Slots, Owned;
    var k := s.workers[w].phase;
    HeldAlone(s, w, c);
    BatchAfter(c, ViewOf(s, c), k.query, k.stage.batches);
    BatchView(s, w, c);
    m := Batching;
  }

  lemma BatchAfter(c: Client, v: View, q: Query, k: nat)
    requires v.flight == [Slot(q, Running(k))]
    ensures Fits(c, v, Batching)
    ensures After(c, v, Batching)
              == View(v.conn.(notes := v.conn.notes + [Partial(q, k + 1)]), [Slot(q, Running(k + 1))], v.effects)
  {
  }

  lemma BatchDone(s: State, w: nat, c: Client)
    requires Enabled(s, Batch(w)) && Actor(s, Batch(w)) == Some(c) && c in s.clients
    ensures var t, k, u := Do(s, Batch(w)), s.workers[w], s.clients[c];
            var q, n := k.phase.query, k.phase.stage.batches + 1;
            && t.workers == s.workers[w := k.(phase := Busy(q, Running(n)))] && t.effects == s.effects
            && c in t.clients && t.clients[c] == u.(notes := u.notes + [Partial(q, n)])
  {
  }

  lemma BatchView(s: State, w: nat, c: Client)
    requires Enabled(s, Batch(w)) && Actor(s, Batch(w)) == Some(c) && c in s.clients && |InFlight(s.workers, c)| <= 1
    ensures var u, q, n := s.clients[c], s.workers[w].phase.query, s.workers[w].phase.stage.batches + 1;
            && c in Do(s, Batch(w)).clients
            && ViewOf(Do(s, Batch(w)), c)
               == View(u.(notes := u.notes + [Partial(q, n)]), [Slot(q, Running(n))], Owned(s.effects, c))
  {
    BatchDone(s, w, c);
    HeldReplaced(s, w, Busy(s.workers[w].phase.query, Running(s.workers[w].phase.stage.batches + 1)), c);
  }

  lemma EndMove(s: State, w: nat, i: bool, c: Client) returns (m: Move)
    requires Enabled(s, End(w, i)) && Actor(s, End(w, i)) == Some(c) && c in s.clients && |InFlight(s.workers, c)| <= 1
    ensures var l := End(w, i);
            c in Do(s, l).clients && Fits(c, ViewOf(s, c), m) && ViewOf(Do(s, l), c) == After(c, ViewOf(s, c), m)
    ensures m == Staging(Ran(i))
  {
    HeldAlone(s, w, c);
    HeldReplaced(s, w, Busy(s.workers[w].phase.query, Ran(i)), c);
    m := Staging(Ran(i));
  }

  lemma AttachMove(s: State, w: nat, c: Client) returns (m: Move)
    requires Enabled(s, Attach(w)) && Actor(s, Attach(w)) == Some(c) && c in s.clients && |InFlight(s.workers, c)| <= 1
    requires Labelled(s) && c != GLOBAL
    ensures var l := Attach(w);
            c in Do(s, l).clients && Fits(c, ViewOf(s, c), m) && ViewOf(Do(s, l), c) == After(c, ViewOf(s, c), m)
    ensures !m.Staging?
  {
    assert Proper(s.workers[w].phase.query);
    HeldAlone(s, w, c);
    HeldReplaced(s, w, Idle, c);
    m := if s.workers[w].phase.stage.interrupted then Dropping else Answering;
  }

  lemma HeldReplaced(s: State, w: nat, phase: Phase, c: Client)
    requires Stands(s, w) && s.workers[w].phase.query.owner == c && |InFlight(s.workers, c)| <= 1
    ensures InFlight(s.workers[w := s.workers[w].(phase := phase)], c) == PhaseSlots(phase, c)
  {
    HeldAlone(s, w, c);
    InFlightUpdate(s.workers, w, s.workers[w].(phase := phase), c);
  }

  lemma InvStep(s: State, l: Label)
    requires Inv(s) && Enabled(s, l)
    ensures Inv(Do(s, l))
  {
    LifecycleStep(s, l);
    LabelledStep(s, l);
    ExclusiveStep(s, l);
    AbsentStep(s, l);
    forall c | c in Do(s, l).clients && c != GLOBAL ensures Sound(c, ViewOf(Do(s, l), c)) {
      SoundStep(s, l, c);
    }
  }
}
