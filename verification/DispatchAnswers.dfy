/**
  Nothing is lost: what the labels of a run bring is in the deques, and every query that a
  thread has finished is answered, unless its run was interrupted.
 */
module DispatchAnswers {
  import opened Wrappers
  import opened Dispatch
  import opened DispatchInvariant
  import opened DispatchTheorems
  import opened DispatchRuns

  // ------------------------------------------------- every query is answered

  /** The step interrupts a query of `c`. */
  ghost predicate Hits(s: State, l: Label, c: Client) {
    l.End? && l.interrupted && Enabled(s, l) && s.workers[l.w].phase.query.owner == c
  }

  /** One of the first `i` steps interrupted a query of `c`. */
  ghost predicate Hit(states: seq<State>, labels: seq<Label>, i: nat, c: Client)
    requires Execution(states, labels) && i <= |labels|
  {
    i > 0 && (Hit(states, labels, i - 1, c) || Hits(states[i - 1], labels[i - 1], c))
  }

  /** What has become of the newest query, by whether one was interrupted. */
  ghost predicate Fate(locked: bool, accepted: seq<Query>, stream: seq<Note>, notes: seq<Note>, flight: seq<Slot>, hit: bool) {
    if hit then
      && locked && accepted != [] && Finals(notes) == []
      && (if flight == [] then Finals(stream) == Earlier(accepted) else flight[0].stage == Ran(true))
    else if flight == [] then Finals(stream) == accepted
    else flight[0].stage != Ran(true)
  }

  ghost predicate FateOf(v: View, hit: bool) {
    Fate(v.conn.locked, v.conn.accepted, v.conn.delivered + v.conn.notes, v.conn.notes, v.flight, hit)
  }

  lemma StageFate(c: Client, v: View, stage: Stage, hit: bool)
    requires Sound(c, v) && Fits(c, v, Staging(stage)) && FateOf(v, hit)
    ensures FateOf(After(c, v, Staging(stage)), hit || stage == Ran(true))
  {
    var u, slot := v.conn, v.flight[0];
    assert v.flight == [slot];
    Newest(u.locked, u.accepted, u.delivered, u.notes, slot);
  }

  lemma AnswerFate(c: Client, v: View, hit: bool)
    requires Sound(c, v) && Fits(c, v, Answering) && FateOf(v, hit)
    ensures FateOf(After(c, v, Answering), hit)
  {
    hide Books, Effected, Framed, Finals, Earlier;
    var u, slot := v.conn, v.flight[0];
    assert v.flight == [slot] && !hit;
    Newest(u.locked, u.accepted, u.delivered, u.notes, slot);
    Attached(u.delivered, u.notes, Final(slot.query));
    FinalsAppend(u.delivered + u.notes, Final(slot.query));
    EarlierOf(u.accepted, slot.query);
  }

  lemma DropFate(c: Client, v: View, hit: bool)
    requires Sound(c, v) && Fits(c, v, Dropping) && FateOf(v, hit)
    ensures FateOf(After(c, v, Dropping), hit)
  {
    var u, slot := v.conn, v.flight[0];
    assert v.flight == [slot] && hit;
    Newest(u.locked, u.accepted, u.delivered, u.notes, slot);
  }

  lemma DeliverFate(c: Client, v: View, hit: bool)
    requires Sound(c, v) && Fits(c, v, Delivering) && FateOf(v, hit)
    ensures FateOf(After(c, v, Delivering), hit)
  {
    hide Books, Progress, Effected, Finals, Earlier;
    Moved(v.conn.delivered, v.conn.notes);
    if hit {
      FinalsCons(v.conn.notes);
    }
  }

  lemma Moved(got: seq<Note>, notes: seq<Note>)
    requires notes != []
    ensures got + [notes[0]] + notes[1..] == got + notes
  {
  }

  lemma PostFate(c: Client, v: View, hit: bool)
    requires Sound(c, v) && Fits(c, v, Posting) && FateOf(v, hit)
    ensures FateOf(After(c, v, Posting), hit)
  {
  }

  /** A batch of an uninterrupted query, which stays in its thread. */
  lemma BatchFate(c: Client, v: View, hit: bool)
    requires Sound(c, v) && Fits(c, v, Batching) && FateOf(v, hit)
    ensures FateOf(After(c, v, Batching), hit)
  {
    hide Books, Progress, Effected, Finals, Earlier;
  }

  lemma QuietFate(c: Client, v: View, m: Move, hit: bool)
    requires Fits(c, v, m) && FateOf(v, hit) && (m.Pushing? || m.Refusing? || m.Quitting? || m.Staying?)
    ensures FateOf(After(c, v, m), hit)
  {
    hide Finals, Earlier;
  }

  lemma MoveFate(c: Client, v: View, m: Move, hit: bool)
    requires Sound(c, v) && Fits(c, v, m) && FateOf(v, hit)
    ensures FateOf(After(c, v, m), hit || m == Staging(Ran(true)))
  {
    hide Sound, FateOf, After;
    match m
    case Posting => PostFate(c, v, hit);
    case Delivering => DeliverFate(c, v, hit);
    case Staging(stage) => StageFate(c, v, stage, hit);
    case Batching => BatchFate(c, v, hit);
    case Dropping => DropFate(c, v, hit);
    case Answering => AnswerFate(c, v, hit);
    case _ => QuietFate(c, v, m, hit);
  }

  lemma NothingFated()
    ensures FateOf(View(NEW_CONN, [], []), false)
  {
  }

  /** A query that a thread works on belongs to a client that was there before. */
  lemma HitKnown(s: State, l: Label, c: Client)
    requires Enabled(s, l)
    ensures Hits(s, l, c) ==> c in s.clients && Actor(s, l) == Some(c)
    ensures Actor(s, l) == Some(c) ==> (Hits(s, l, c) <==> l.End? && l.interrupted)
    ensures c in s.clients ==> c in Do(s, l).clients
    ensures c in Do(s, l).clients && (!l.AddUser? || Actor(s, l) != Some(c)) ==> c in s.clients
  {
  }

  lemma NewcomerView(s: State, l: Label, c: Client)
    requires Absent(s) && Enabled(s, l) && l.AddUser? && Actor(s, l) == Some(c)
    ensures c !in s.clients && c in Do(s, l).clients && ViewOf(Do(s, l), c) == View(NEW_CONN, [], []) && !Hits(s, l, c)
  {
  }

  lemma StepFate(s: State, l: Label, c: Client, hit: bool)
    requires Inv(s) && Enabled(s, l) && c in Do(s, l).clients && c != GLOBAL
    requires if c in s.clients then FateOf(ViewOf(s, c), hit) else !hit
    ensures FateOf(ViewOf(Do(s, l), c), hit || Hits(s, l, c))
  {
    hide FateOf, Sound, Do, Actor, Enabled, InFlight, Owned, After, Fits;
    HitKnown(s, l, c);
    if Actor(s, l) != Some(c) {
      BystanderView(s, l, c);
    } else if l.AddUser? {
      NewcomerView(s, l, c);
      NothingFated();
    } else {
      assert Sound(c, ViewOf(s, c));
      SoundFlight(c, ViewOf(s, c));
      var m := StepMove(s, l, c);
      MoveFate(c, ViewOf(s, c), m, hit);
    }
  }

  lemma {:induction false} FateAt(states: seq<State>, labels: seq<Label>, i: nat, c: Client)
    requires Execution(states, labels) && i < |states| && c != GLOBAL
    ensures if c in states[i].clients then FateOf(ViewOf(states[i], c), Hit(states, labels, i, c))
            else !Hit(states, labels, i, c)
  {
    hide FateOf;
    if i > 0 {
      FateAt(states, labels, i - 1, c);
      InvAt(states, labels, i - 1);
      StepAt(states, labels, i);
      HitKnown(states[i - 1], labels[i - 1], c);
      if c in states[i].clients {
        StepFate(states[i - 1], labels[i - 1], c, Hit(states, labels, i - 1, c));
      }
    }
  }

  /** While no query of a client is inside the threads, all that were accepted have been
      answered exactly if none was interrupted; otherwise all but the newest have, and the
      client stays locked. While one is inside, all before it have. */
  lemma AnsweredExactly(states: seq<State>, labels: seq<Label>, i: nat, c: Client)
    requires Execution(states, labels) && i < |states| && Known(states[i], c)
    ensures var u, flight := states[i].clients[c], InFlight(states[i].workers, c);
            var answered := Finals(u.delivered + u.notes);
            && (flight == [] ==> (answered == u.accepted <==> !Hit(states, labels, i, c)))
            && (flight == [] && Hit(states, labels, i, c) ==> u.locked && u.accepted != [] && answered == Earlier(u.accepted))
            && (flight != [] ==> u.accepted != [] && answered == Earlier(u.accepted))
            && (flight == [] && u.locked && !Hit(states, labels, i, c) ==> AnswerReady(u.notes))
  {
    var u, flight := states[i].clients[c], InFlight(states[i].workers, c);
    FateAt(states, labels, i, c);
    ViewAt(states, labels, i, c);
    FateMeans(u, flight, Hit(states, labels, i, c));
  }

  lemma FateMeans(u: Conn, flight: seq<Slot>, hit: bool)
    requires Progress(u.locked, u.accepted, u.delivered, u.notes, flight)
    requires Fate(u.locked, u.accepted, u.delivered + u.notes, u.notes, flight, hit)
    ensures var answered := Finals(u.delivered + u.notes);
            && (flight == [] ==> (answered == u.accepted <==> !hit))
            && (flight == [] && hit ==> u.locked && u.accepted != [] && answered == Earlier(u.accepted))
            && (flight != [] ==> u.accepted != [] && answered == Earlier(u.accepted))
            && (flight == [] && u.locked && !hit ==> AnswerReady(u.notes))
  {
    hide Finals, Framed;
    assert u.accepted != [] ==> |Earlier(u.accepted)| < |u.accepted|;
  }

  lemma {:induction false} NeverHit(states: seq<State>, labels: seq<Label>, i: nat, c: Client)
    requires Execution(states, labels) && i <= |labels|
    requires forall j, w :: 0 <= j < i ==> labels[j] != End(w, true)
    ensures !Hit(states, labels, i, c)
  {
    if i > 0 {
      NeverHit(states, labels, i - 1, c);
      match labels[i - 1]
      case End(w, interrupted) => assert labels[i - 1] == End(w, interrupted);
      case _ =>
    }
  }

  /** In a run without interruptions every query that has left the threads is answered. */
  lemma AllAnswered(states: seq<State>, labels: seq<Label>, i: nat, c: Client)
    requires Execution(states, labels) && i < |states| && Known(states[i], c)
    requires forall j, w :: 0 <= j < i ==> labels[j] != End(w, true)
    requires InFlight(states[i].workers, c) == []
    ensures var u := states[i].clients[c];
            Finals(u.delivered + u.notes) == u.accepted && (u.locked ==> AnswerReady(u.notes))
  {
    NeverHit(states, labels, i, c);
    AnsweredExactly(states, labels, i, c);
  }

  // ------------------------------------------------- what the labels bring

  /** What the labels alone say of one client: its queries, how many of them were taken
      from its deque, those that went to a thread, how many results it has got, and
      whether it has quit. */
  datatype Story = Story(pushed: seq<Query>, taken: nat, posted: seq<Query>, got: nat, quit: bool)

  function Told(st: Story, l: Label, c: Client): Story {
    match l
    case Push(d, flags, formed) =>
      if d == c && !st.quit then st.(pushed := st.pushed + [Query(c, |st.pushed|, flags, formed)]) else st
    case Post(d, _) =>
      if d == c && st.taken < |st.pushed| then st.(posted := st.posted + [st.pushed[st.taken]], taken := st.taken + 1) else st
    case Refuse(d) => if d == c then st.(taken := st.taken + 1) else st
    case Deliver(d) => if d == c then st.(got := st.got + 1) else st
    case Disconnect(d) => if d == c && c != GLOBAL then st.(quit := true) else st
    case _ => st
  }

  function Tell(labels: seq<Label>, c: Client): Story {
    if labels == [] then Story([], 0, [], 0, false) else Told(Tell(labels[..|labels| - 1], c), labels[|labels| - 1], c)
  }

  ghost predicate Agrees(u: Conn, st: Story) {
    && u.pushed == st.pushed && u.accepted == st.posted && u.quitting == st.quit && |u.delivered| == st.got
    && |u.pending| + st.taken == |u.pushed|
    && forall k :: 0 <= k < |u.pending| ==> u.pending[k] == u.pushed[st.taken + k]
  }

  ghost predicate Truthful(s: State, c: Client, st: Story) {
    if c in s.clients then Agrees(s.clients[c], st) else st == Story([], 0, [], 0, false)
  }

  /** The client a label of the main loop or of the life cycle names. */
  predicate Names(l: Label, c: Client) {
    match l
    case AddUser(d) => c == d
    case Push(d, _, _) => c == d
    case Post(d, _) => c == d
    case Refuse(d) => c == d
    case Deliver(d) => c == d
    case Disconnect(d) => c == d
    case _ => false
  }

  lemma NamedTrue(s: State, l: Label, c: Client, st: Story)
    requires Enabled(s, l) && Names(l, c) && !l.AddUser? && !l.Disconnect? && Truthful(s, c, st)
    ensures Truthful(Do(s, l), c, Told(st, l, c))
  {
  }

  lemma LifeTrue(s: State, l: Label, c: Client, st: Story)
    requires Enabled(s, l) && Names(l, c) && (l.AddUser? || l.Disconnect?) && Truthful(s, c, st)
    ensures Truthful(Do(s, l), c, Told(st, l, c))
  {
  }

  /** The other labels leave these parts of every record as they are. */
  lemma UnnamedSame(s: State, l: Label, c: Client)
    requires Enabled(s, l) && !Names(l, c)
    ensures c in Do(s, l).clients <==> c in s.clients
    ensures c in s.clients ==>
              var u, u' := s.clients[c], Do(s, l).clients[c];
              u'.pushed == u.pushed && u'.pending == u.pending && u'.accepted == u.accepted
              && u'.delivered == u.delivered && u'.quitting == u.quitting
  {
  }

  lemma StepTrue(s: State, l: Label, c: Client, st: Story)
    requires Enabled(s, l) && Truthful(s, c, st)
    ensures Truthful(Do(s, l), c, Told(st, l, c))
  {
    if !Names(l, c) {
      hide Do;
      UnnamedSame(s, l, c);
    } else if l.AddUser? || l.Disconnect? {
      hide Agrees;
      LifeTrue(s, l, c, st);
    } else {
      NamedTrue(s, l, c, st);
    }
  }

  /** In every run the records of a client are what the labels brought: every query that was
      pushed before it quit is in its deque in the order of pushing until it is taken, those
      taken by a post and no others were accepted, and it has got one result for every
      delivery. */
  lemma {:induction false} NothingLost(states: seq<State>, labels: seq<Label>, i: nat, c: Client)
    requires Execution(states, labels) && i < |states|
    ensures Truthful(states[i], c, Tell(labels[..i], c))
  {
    if i > 0 {
      NothingLost(states, labels, i - 1, c);
      StepAt(states, labels, i);
      assert labels[..i][..i - 1] == labels[..i - 1];
      StepTrue(states[i - 1], labels[i - 1], c, Tell(labels[..i - 1], c));
    }
  }
}
