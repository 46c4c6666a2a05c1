/**
  The inductive invariant of the dispatch protocol.

  Everything the protocol keeps about one client is a predicate on that client's
  view: its record, its queries inside the threads, and its database effects.
  A step changes the view of at most one client, so each step needs one local
  argument about views and one frame argument for everybody else.
 */
module DispatchInvariant {
  import opened Wrappers
  import opened Dispatch

  /** A query inside a thread, with the stage it has reached. */
  datatype Slot = Slot(query: Query, stage: Stage)

  datatype View = View(conn: Conn, flight: seq<Slot>, effects: seq<Query>)

  // ------------------------------------------------- what a view is made of

  function QueueSlots(queue: seq<Query>, c: Client): seq<Slot> {
    if queue == [] then []
    else (if queue[0].owner == c then [Slot(queue[0], Queued)] else []) + QueueSlots(queue[1..], c)
  }

  function PhaseSlots(phase: Phase, c: Client): seq<Slot> {
    if phase.Busy? && phase.query.owner == c then [Slot(phase.query, phase.stage)] else []
  }

  function Slots(k: Worker, c: Client): seq<Slot> {
    PhaseSlots(k.phase, c) + QueueSlots(k.queue, c)
  }

  /** The queries of `c` that some thread holds in its queue or is working on. */
  function InFlight(workers: seq<Worker>, c: Client): seq<Slot> {
    if workers == [] then [] else Slots(workers[0], c) + InFlight(workers[1..], c)
  }

  function Owned(queries: seq<Query>, c: Client): seq<Query> {
    if queries == [] then [] else
    var last := |queries| - 1;
    Owned(queries[..last], c) + (if queries[last].owner == c then [queries[last]] else [])
  }

  /** The queries that reach the database when run. */
  function Formed(queries: seq<Query>): seq<Query> {
    if queries == [] then [] else
    var last := |queries| - 1;
    Formed(queries[..last]) + (if queries[last].formed then [queries[last]] else [])
  }

  /** The queries whose final result occurs in a stream of results. */
  function Finals(notes: seq<Note>): seq<Query> {
    if notes == [] then [] else
    var last := |notes| - 1;
    Finals(notes[..last]) + (if notes[last].Final? then [notes[last].query] else [])
  }

  function ViewOf(s: State, c: Client): View
    requires c in s.clients
  {
    View(s.clients[c], InFlight(s.workers, c), Owned(s.effects, c))
  }

  // ------------------------------------------------- the stream of results

  /** `n` may directly follow `before` in a stream of results: batches count up
      from 1 without a gap, and a final result closes the block of its own query. */
  predicate Links(before: Option<Note>, n: Note) {
    match n
    case Partial(q, k) =>
      k > 0 && if k == 1 then before.None? || before.value.Final? else before == Some(Partial(q, k - 1))
    case Final(q) => before.None? || before.value.Final? || before.value.query == q
  }

  function Before(notes: seq<Note>, i: nat): Option<Note>
    requires i <= |notes|
  {
    if i == 0 then None else Some(notes[i - 1])
  }

  ghost predicate LinkedAt(notes: seq<Note>, i: nat)
    requires i < |notes|
  {
    Links(Before(notes, i), notes[i])
  }

  ghost predicate Framed(notes: seq<Note>) {
    forall i: nat :: i < |notes| ==> LinkedAt(notes, i)
  }

  /** No block of partial results is left open at the end. */
  predicate Closed(notes: seq<Note>) {
    notes == [] || notes[|notes| - 1].Final?
  }

  // ------------------------------------------------- the invariant

  predicate Waiting(flight: seq<Slot>) {
    |flight| == 1 && (flight[0].stage.Queued? || flight[0].stage.Took?)
  }

  function Earlier(queries: seq<Query>): seq<Query> {
    if queries == [] then [] else queries[..|queries| - 1]
  }

  /** The logs of one client agree with its deques: what is pending is the tail of
      what was pushed, and what went to a thread is part of the rest, in order. */
  ghost predicate Books(c: Client, pushed: seq<Query>, pending: seq<Query>, accepted: seq<Query>) {
    var taken := |pushed| - |pending|;
    && taken >= 0 && (forall i :: 0 <= i < |pending| ==> pending[i] == pushed[taken + i])
    && (forall i :: 0 <= i < |pushed| ==>
          pushed[i].owner == c && pushed[i].number == i && pushed[i].flags == Plain)
    && (forall i :: 0 <= i < |accepted| ==>
          accepted[i].number < taken && accepted[i] == pushed[accepted[i].number])
    && (forall i, j :: 0 <= i < j < |accepted| ==> accepted[i].number < accepted[j].number)
  }

  /** How far the newest accepted query has come, given where it is: `got` is what was
      delivered, and `notes` what is still to be. */
  ghost predicate Progress(locked: bool, accepted: seq<Query>, got: seq<Note>, notes: seq<Note>, flight: seq<Slot>) {
    && |flight| <= 1
    && Framed(got + notes)
    && if !locked then flight == [] && Resting(accepted, notes, got + notes)
       else if flight == [] && AnswerReady(notes) then Answered(accepted, notes, got + notes)
       else Underway(accepted, notes, flight, got + notes)
  }

  /** Nothing is owed: every accepted query has been answered. */
  ghost predicate Resting(accepted: seq<Query>, notes: seq<Note>, stream: seq<Note>) {
    notes == [] && Finals(stream) == accepted && Closed(stream)
  }

  predicate AnswerReady(notes: seq<Note>) {
    notes != [] && notes[|notes| - 1].Final?
  }

  /** The answer is in the deque, behind nothing but partial results. */
  ghost predicate Answered(accepted: seq<Query>, notes: seq<Note>, stream: seq<Note>) {
    && notes != [] && accepted != []
    && Finals(stream) == accepted && Finals(notes[..|notes| - 1]) == []
  }

  /** The newest query is the only one without an answer: it is in a thread, or
      its run was interrupted. */
  ghost predicate Underway(accepted: seq<Query>, notes: seq<Note>, flight: seq<Slot>, stream: seq<Note>) {
    && accepted != []
    && Finals(stream) == Earlier(accepted) && Finals(notes) == []
    && (flight != [] ==> AtSlot(accepted, notes, flight[0], stream))
  }

  ghost predicate AtSlot(accepted: seq<Query>, notes: seq<Note>, slot: Slot, stream: seq<Note>)
    requires accepted != []
  {
    && slot.query == accepted[|accepted| - 1]
    && match slot.stage
       case Queued => Closed(stream) && notes == []
       case Took => Closed(stream) && notes == []
       case Running(k) => if k == 0 then Closed(stream) else Before(stream, |stream|) == Some(Partial(slot.query, k))
       case Ran(_) => Closed(stream) || Before(stream, |stream|).value.query == slot.query
  }

  /** What was accepted has taken effect, except for a query that no thread has begun. */
  ghost predicate Effected(accepted: seq<Query>, flight: seq<Slot>, effects: seq<Query>) {
    effects == Formed(if Waiting(flight) then Earlier(accepted) else accepted)
  }

  ghost predicate Sound(c: Client, v: View) {
    && Books(c, v.conn.pushed, v.conn.pending, v.conn.accepted)
    && Progress(v.conn.locked, v.conn.accepted, v.conn.delivered, v.conn.notes, v.flight)
    && Effected(v.conn.accepted, v.flight, v.effects)
  }

  /** Every quitting client is in exactly one place, and only once; those awaiting
      exit are locked, those handed to the Reducer are not. */
  ghost predicate Lifecycle(s: State) {
    && GLOBAL in s.clients && !s.clients[GLOBAL].quitting
    && (forall c :: c in s.listed ==> c in s.clients && c != GLOBAL && !s.clients[c].quitting)
    && (forall c :: c in s.awaiting ==> c in s.clients && c != GLOBAL && s.clients[c].quitting && s.clients[c].locked)
    && (forall c :: c in s.reducer ==> c in s.clients && c != GLOBAL && s.clients[c].quitting && !s.clients[c].locked)
    && (forall c :: c in s.freed ==> c in s.clients && c != GLOBAL && s.clients[c].quitting && !s.clients[c].locked)
    && (forall c :: c in s.clients && c != GLOBAL ==>
          if s.clients[c].quitting then Exits(s, c) == 1 else Exits(s, c) == 0 && c in s.listed)
  }

  /** How often `c` occurs among the clients that are leaving or have left. */
  function Exits(s: State, c: Client): nat {
    multiset(s.awaiting)[c] + multiset(s.reducer)[c] + multiset(s.freed)[c]
  }

  /** Quiet and broadcast queries belong to the Global user. */
  predicate Proper(q: Query) {
    q.owner != GLOBAL ==> q.flags == Plain
  }

  ghost predicate Labelled(s: State) {
    && (forall c, i :: c in s.clients && 0 <= i < |s.clients[c].pending| ==>
          s.clients[c].pending[i].owner == c && Proper(s.clients[c].pending[i]))
    && (forall w, i :: 0 <= w < |s.workers| && 0 <= i < |s.workers[w].queue| ==> Proper(s.workers[w].queue[i]))
    && (forall w :: 0 <= w < |s.workers| && s.workers[w].phase.Busy? ==> Proper(s.workers[w].phase.query))
  }

  ghost predicate Absent(s: State) {
    forall c :: c !in s.clients ==> InFlight(s.workers, c) == [] && Owned(s.effects, c) == []
  }

  /** The thread inside Prepare is the one that owns query_mute. */
  ghost predicate Exclusive(s: State) {
    && |s.workers| > 0 && (s.mute.Some? ==> s.mute.value < |s.workers|)
    && forall w :: 0 <= w < |s.workers| ==>
         ((s.workers[w].phase.Busy? && s.workers[w].phase.stage.Running?) <==> s.mute == Some(w))
  }

  ghost predicate AllSound(s: State) {
    forall c {:trigger ViewOf(s, c)} :: c in s.clients && c != GLOBAL ==> Sound(c, ViewOf(s, c))
  }

  ghost predicate Inv(s: State) {
    Lifecycle(s) && Exclusive(s) && Absent(s) && Labelled(s) && AllSound(s)
  }

  // ------------------------------------------------- lemmas about the parts

  lemma Regroup<T>(a: seq<T>, b: seq<T>, c: seq<T>, d: seq<T>)
    ensures a + (b + c + d) == (a + b) + c + d
  {
  }

  lemma InFlightFirst(workers: seq<Worker>, c: Client)
    requires workers != []
    ensures InFlight(workers, c) == Slots(workers[0], c) + InFlight(workers[1..], c)
    ensures InFlight(workers[..0], c) == []
  {
  }

  lemma {:induction false} InFlightAt(workers: seq<Worker>, w: nat, c: Client)
    requires w < |workers|
    ensures InFlight(workers, c) == InFlight(workers[..w], c) + Slots(workers[w], c) + InFlight(workers[w + 1..], c)
  {
    hide InFlight, Slots;
    InFlightFirst(workers, c);
    if w > 0 {
      InFlightAt(workers[1..], w - 1, c);
      InFlightFirst(workers[..w], c);
      assert workers[1..][..w - 1] == workers[..w][1..] && workers[1..][w..] == workers[w + 1..];
      Regroup(Slots(workers[0], c), InFlight(workers[..w][1..], c), Slots(workers[w], c), InFlight(workers[w + 1..], c));
    }
  }

  lemma InFlightUpdate(workers: seq<Worker>, w: nat, k: Worker, c: Client)
    requires w < |workers|
    ensures Slots(k, c) == Slots(workers[w], c) ==> InFlight(workers[w := k], c) == InFlight(workers, c)
    ensures InFlight(workers, c) == [] ==> Slots(workers[w], c) == [] && InFlight(workers[w := k], c) == Slots(k, c)
    ensures |InFlight(workers, c)| <= 1 && Slots(workers[w], c) != [] ==>
              InFlight(workers, c) == Slots(workers[w], c) && InFlight(workers[w := k], c) == Slots(k, c)
  {
    InFlightAt(workers, w, c);
    InFlightAt(workers[w := k], w, c);
    assert workers[w := k][..w] == workers[..w];
    assert workers[w := k][w + 1..] == workers[w + 1..];
    var a, b, d := InFlight(workers[..w], c), Slots(workers[w], c), InFlight(workers[w + 1..], c);
    assert |a + b + d| == |a| + |b| + |d|;
    if a == [] && d == [] {
      assert a + b + d == b;
      assert a + Slots(k, c) + d == Slots(k, c);
    }
  }

  lemma {:induction false} QueueSlotsAppend(queue: seq<Query>, q: Query, c: Client)
    ensures QueueSlots(queue + [q], c) == QueueSlots(queue, c) + QueueSlots([q], c)
  {
    if queue != [] {
      assert (queue + [q])[1..] == queue[1..] + [q];
      QueueSlotsAppend(queue[1..], q, c);
    }
  }

  lemma OwnedAppend(queries: seq<Query>, q: Query, c: Client)
    ensures Owned(queries + [q], c) == if q.owner == c then Owned(queries, c) + [q] else Owned(queries, c)
  {
    assert (queries + [q])[..|queries|] == queries;
  }

  lemma FormedAppend(queries: seq<Query>, q: Query)
    ensures Formed(queries + [q]) == if q.formed then Formed(queries) + [q] else Formed(queries)
  {
    assert (queries + [q])[..|queries|] == queries;
  }

  lemma {:induction false} FinalsConcat(a: seq<Note>, b: seq<Note>)
    ensures Finals(a + b) == Finals(a) + Finals(b)
  {
    if b == [] {
      assert a + b == a;
    } else {
      var last := |b| - 1;
      FinalsConcat(a, b[..last]);
      assert b == b[..last] + [b[last]];
      FinalsStep(a, b[..last], b[last]);
    }
  }

  lemma FinalsStep(a: seq<Note>, b: seq<Note>, n: Note)
    requires Finals(a + b) == Finals(a) + Finals(b)
    ensures Finals(a + (b + [n])) == Finals(a) + Finals(b + [n])
  {
    hide Finals;
    Attached(a, b, n);
    FinalsAppend(a + b, n);
    FinalsAppend(b, n);
  }

  lemma FinalsAppend(a: seq<Note>, n: Note)
    ensures Finals(a + [n]) == if n.Final? then Finals(a) + [n.query] else Finals(a)
  {
    assert (a + [n])[..|a|] == a;
  }

  lemma FramedAppend(a: seq<Note>, n: Note)
    requires Framed(a) && Links(Before(a, |a|), n)
    ensures Framed(a + [n])
  {
    forall i: nat | i < |a + [n]| ensures LinkedAt(a + [n], i) {
      if i < |a| {
        assert LinkedAt(a, i);
      }
    }
  }

  // ------------------------------------------------- steps on the parts of a view

  lemma PushBooks(c: Client, pushed: seq<Query>, pending: seq<Query>, accepted: seq<Query>, q: Query)
    requires Books(c, pushed, pending, accepted) && q.owner == c && q.number == |pushed| && q.flags == Plain
    ensures Books(c, pushed + [q], pending + [q], accepted)
  {
  }

  lemma PostBooks(c: Client, pushed: seq<Query>, pending: seq<Query>, accepted: seq<Query>)
    requires Books(c, pushed, pending, accepted) && pending != []
    ensures Books(c, pushed, pending[1..], accepted + [pending[0]])
  {
  }

  lemma RefuseBooks(c: Client, pushed: seq<Query>, pending: seq<Query>, accepted: seq<Query>)
    requires Books(c, pushed, pending, accepted) && pending != []
    ensures Books(c, pushed, pending[1..], accepted)
  {
  }

  lemma EarlierOf(accepted: seq<Query>, q: Query)
    ensures Earlier(accepted + [q]) == accepted
    ensures accepted != [] && q == accepted[|accepted| - 1] ==> accepted == Earlier(accepted) + [q]
  {
  }

  lemma PostProgress(accepted: seq<Query>, got: seq<Note>, notes: seq<Note>, flight: seq<Slot>, q: Query)
    requires Progress(false, accepted, got, notes, flight)
    ensures Progress(true, accepted + [q], got, notes, [Slot(q, Queued)])
    ensures flight == []
  {
    EarlierOf(accepted, q);
  }

  lemma PostEffected(accepted: seq<Query>, effects: seq<Query>, q: Query)
    requires Effected(accepted, [], effects)
    ensures Effected(accepted + [q], [Slot(q, Queued)], effects)
  {
    EarlierOf(accepted, q);
  }

  /** One result moves from the deque to what was delivered. */
  lemma DeliverProgress(locked: bool, accepted: seq<Query>, got: seq<Note>, notes: seq<Note>, flight: seq<Slot>)
    requires Progress(locked, accepted, got, notes, flight) && notes != []
    ensures Progress(locked && notes[0].Partial?, accepted, got + [notes[0]], notes[1..], flight)
  {
    var stream := got + notes;
    assert got + [notes[0]] + notes[1..] == stream;
    if flight == [] && AnswerReady(notes) {
      DeliverAnswered(accepted, notes, stream);
    } else {
      FinalsCons(notes);
      assert AnswerReady(notes[1..]) ==> AnswerReady(notes);
      DeliverUnderway(accepted, notes, flight, stream);
    }
  }

  lemma DeliverUnderway(accepted: seq<Query>, notes: seq<Note>, flight: seq<Slot>, stream: seq<Note>)
    requires Underway(accepted, notes, flight, stream) && notes != []
    ensures Underway(accepted, notes[1..], flight, stream)
  {
    FinalsCons(notes);
  }

  lemma DeliverAnswered(accepted: seq<Query>, notes: seq<Note>, stream: seq<Note>)
    requires AnswerReady(notes) && Answered(accepted, notes, stream) && |notes| <= |stream|
    requires stream[|stream| - 1] == notes[|notes| - 1]
    ensures if |notes| == 1 then notes[0].Final? && Resting(accepted, notes[1..], stream)
            else notes[0].Partial? && AnswerReady(notes[1..]) && Answered(accepted, notes[1..], stream)
  {
    var last := |notes| - 1;
    if last > 0 {
      FinalsCons(notes[..last]);
      assert notes[..last][1..] == notes[1..][..last - 1];
    }
  }

  lemma FinalsCons(notes: seq<Note>)
    requires notes != [] && Finals(notes) == []
    ensures notes[0].Partial? && Finals(notes[1..]) == []
  {
    assert notes == [notes[0]] + notes[1..];
    FinalsConcat([notes[0]], notes[1..]);
    FinalsAppend([], notes[0]);
    assert [] + [notes[0]] == [notes[0]];
  }

  /** The stages a query goes through in a thread, apart from its batches. */
  predicate NextStage(stage: Stage, stage': Stage) {
    match stage
    case Queued => stage'.Took?
    case Took => stage' == Running(0)
    case Running(_) => stage'.Ran?
    case Ran(_) => false
  }

  /** A query in a thread is the newest one accepted. */
  lemma Newest(locked: bool, accepted: seq<Query>, got: seq<Note>, notes: seq<Note>, slot: Slot)
    requires Progress(locked, accepted, got, notes, [slot])
    ensures locked && accepted != [] && slot.query == accepted[|accepted| - 1]
    ensures AtSlot(accepted, notes, slot, got + notes)
    ensures Underway(accepted, notes, [slot], got + notes) && Framed(got + notes)
  {
    assert [slot][0] == slot;
  }

  /** A thread moves the query on without attaching anything. */
  lemma StageProgress(locked: bool, accepted: seq<Query>, got: seq<Note>, notes: seq<Note>, slot: Slot, stage: Stage)
    requires Progress(locked, accepted, got, notes, [slot]) && NextStage(slot.stage, stage)
    ensures Progress(locked, accepted, got, notes, [Slot(slot.query, stage)])
  {
    Newest(locked, accepted, got, notes, slot);
    assert AtSlot(accepted, notes, Slot(slot.query, stage), got + notes);
  }

  lemma StageEffected(accepted: seq<Query>, slot: Slot, stage: Stage, effects: seq<Query>)
    requires Effected(accepted, [slot], effects) && NextStage(slot.stage, stage)
    requires accepted != [] && slot.query == accepted[|accepted| - 1]
    ensures Effected(accepted, [Slot(slot.query, stage)],
                     if stage.Running? && slot.query.formed then effects + [slot.query] else effects)
  {
    EarlierOf(accepted, slot.query);
    FormedAppend(Earlier(accepted), slot.query);
  }

  lemma Attached(got: seq<Note>, notes: seq<Note>, n: Note)
    ensures got + (notes + [n]) == got + notes + [n]
  {
  }

  lemma BatchUnderway(accepted: seq<Query>, notes: seq<Note>, q: Query, k: nat, stream: seq<Note>)
    requires Framed(stream) && Underway(accepted, notes, [Slot(q, Running(k))], stream)
    ensures var n := Partial(q, k + 1);
            Framed(stream + [n]) && Underway(accepted, notes + [n], [Slot(q, Running(k + 1))], stream + [n])
  {
    var n := Partial(q, k + 1);
    BatchLinks(accepted, notes, q, k, stream);
    FramedAppend(stream, n);
    FinalsAppend(stream, n);
    FinalsAppend(notes, n);
  }

  lemma BatchProgress(locked: bool, accepted: seq<Query>, got: seq<Note>, notes: seq<Note>, q: Query, k: nat)
    requires Progress(locked, accepted, got, notes, [Slot(q, Running(k))])
    ensures Progress(locked, accepted, got, notes + [Partial(q, k + 1)], [Slot(q, Running(k + 1))])
  {
    hide Underway, Framed;
    Newest(locked, accepted, got, notes, Slot(q, Running(k)));
    BatchUnderway(accepted, notes, q, k, got + notes);
    Attached(got, notes, Partial(q, k + 1));
  }

  lemma BatchLinks(accepted: seq<Query>, notes: seq<Note>, q: Query, k: nat, stream: seq<Note>)
    requires accepted != [] && AtSlot(accepted, notes, Slot(q, Running(k)), stream)
    ensures Links(Before(stream, |stream|), Partial(q, k + 1))
  {
  }

  /** A query leaves its thread, and its final result is not attached. */
  lemma DropProgress(locked: bool, accepted: seq<Query>, got: seq<Note>, notes: seq<Note>, slot: Slot)
    requires Progress(locked, accepted, got, notes, [slot])
    ensures Progress(locked, accepted, got, notes, []) && !AnswerReady(notes)
  {
    Newest(locked, accepted, got, notes, slot);
    if notes != [] {
      var last := |notes| - 1;
      assert notes == notes[..last] + [notes[last]];
      FinalsAppend(notes[..last], notes[last]);
    }
  }

  lemma AnswerAnswered(accepted: seq<Query>, notes: seq<Note>, slot: Slot, stream: seq<Note>)
    requires Framed(stream) && Underway(accepted, notes, [slot], stream) && slot.stage.Ran?
    ensures var n := Final(slot.query);
            Framed(stream + [n]) && Answered(accepted, notes + [n], stream + [n])
  {
    var n := Final(slot.query);
    FramedAppend(stream, n);
    FinalsAppend(stream, n);
    EarlierOf(accepted, slot.query);
    assert (notes + [n])[..|notes|] == notes;
  }

  /** A query leaves its thread, and its final result is attached. */
  lemma AnswerProgress(locked: bool, accepted: seq<Query>, got: seq<Note>, notes: seq<Note>, slot: Slot)
    requires Progress(locked, accepted, got, notes, [slot]) && slot.stage.Ran?
    ensures Progress(locked, accepted, got, notes + [Final(slot.query)], [])
  {
    hide Underway, Answered, Framed;
    Newest(locked, accepted, got, notes, slot);
    AnswerAnswered(accepted, notes, slot, got + notes);
    Attached(got, notes, Final(slot.query));
  }

  /** Nothing waits any more, nor did it before. */
  lemma GoneEffected(accepted: seq<Query>, slot: Slot, effects: seq<Query>)
    requires Effected(accepted, [slot], effects) && (slot.stage.Ran? || slot.stage.Running?)
    ensures Effected(accepted, [], effects)
    ensures forall other: Slot :: other.stage.Running? ==> Effected(accepted, [other], effects)
  {
  }

  // ------------------------------------------------- all steps on one view

  function Delivered(u: Conn): Conn
    requires u.notes != []
  {
    u.(notes := u.notes[1..], delivered := u.delivered + [u.notes[0]], locked := u.locked && u.notes[0].Partial?)
  }

  /** What a step can make of the view of the client it is about. */
  datatype Move =
    | Pushing(query: Query) | Posting | Refusing | Delivering | Quitting | Staying
    | Staging(stage: Stage) | Batching | Dropping | Answering

  /** When a move is possible. */
  predicate Fits(c: Client, v: View, m: Move) {
    match m
    case Pushing(q) => q.owner == c && q.number == |v.conn.pushed| && q.flags == Plain
    case Posting => !v.conn.locked && v.conn.pending != []
    case Refusing => !v.conn.locked && v.conn.pending != []
    case Delivering => v.conn.notes != []
    case Quitting => true
    case Staying => true
    case Staging(stage) => |v.flight| == 1 && NextStage(v.flight[0].stage, stage)
    case Batching => |v.flight| == 1 && v.flight[0].stage.Running?
    case Dropping => |v.flight| == 1 && v.flight[0].stage == Ran(true)
    case Answering => |v.flight| == 1 && v.flight[0].stage == Ran(false)
  }

  function After(c: Client, v: View, m: Move): View
    requires Fits(c, v, m)
  {
    var u := v.conn;
    match m
    case Pushing(q) => v.(conn := u.(pending := u.pending + [q], pushed := u.pushed + [q]))
    case Posting =>
      View(u.(locked := true, pending := u.pending[1..], accepted := u.accepted + [u.pending[0]]),
           [Slot(u.pending[0], Queued)], v.effects)
    case Refusing => v.(conn := u.(pending := u.pending[1..]))
    case Delivering => v.(conn := Delivered(u))
    case Quitting => v.(conn := u.(quitting := true))
    case Staying => v
    case Staging(stage) =>
      var q := v.flight[0].query;
      View(u, [Slot(q, stage)], if stage.Running? && q.formed then v.effects + [q] else v.effects)
    case Batching =>
      var q, n := v.flight[0].query, v.flight[0].stage.batches + 1;
      View(u.(notes := u.notes + [Partial(q, n)]), [Slot(q, Running(n))], v.effects)
    case Dropping => v.(flight := [])
    case Answering => View(u.(notes := u.notes + [Final(v.flight[0].query)]), [], v.effects)
  }

  lemma NothingSound(c: Client)
    ensures Sound(c, View(NEW_CONN, [], []))
  {
  }

  lemma PushKeeps(c: Client, v: View, q: Query)
    requires Sound(c, v) && Fits(c, v, Pushing(q))
    ensures Sound(c, After(c, v, Pushing(q)))
  {
    hide Books, Progress, Effected;
    PushBooks(c, v.conn.pushed, v.conn.pending, v.conn.accepted, q);
  }

  lemma PostKeeps(c: Client, v: View)
    requires Sound(c, v) && Fits(c, v, Posting)
    ensures Sound(c, After(c, v, Posting))
  {
    hide Books, Progress, Effected;
    var u, q := v.conn, v.conn.pending[0];
    PostBooks(c, u.pushed, u.pending, u.accepted);
    PostProgress(u.accepted, u.delivered, u.notes, v.flight, q);
    PostEffected(u.accepted, v.effects, q);
  }

  lemma RefuseKeeps(c: Client, v: View)
    requires Sound(c, v) && Fits(c, v, Refusing)
    ensures Sound(c, After(c, v, Refusing))
  {
    hide Books, Progress, Effected;
    RefuseBooks(c, v.conn.pushed, v.conn.pending, v.conn.accepted);
  }

  lemma DeliverKeeps(c: Client, v: View)
    requires Sound(c, v) && Fits(c, v, Delivering)
    ensures Sound(c, After(c, v, Delivering))
  {
    hide Books, Progress, Effected;
    DeliverProgress(v.conn.locked, v.conn.accepted, v.conn.delivered, v.conn.notes, v.flight);
  }

  lemma StageKeeps(c: Client, v: View, stage: Stage)
    requires Sound(c, v) && Fits(c, v, Staging(stage))
    ensures Sound(c, After(c, v, Staging(stage)))
  {
    hide Books, Progress, Effected;
    var u, slot := v.conn, v.flight[0];
    assert v.flight == [slot];
    Newest(u.locked, u.accepted, u.delivered, u.notes, slot);
    StageProgress(u.locked, u.accepted, u.delivered, u.notes, slot, stage);
    StageEffected(u.accepted, slot, stage, v.effects);
  }

  lemma BatchKeeps(c: Client, v: View)
    requires Sound(c, v) && Fits(c, v, Batching)
    ensures Sound(c, After(c, v, Batching))
  {
    hide Books, Progress, Effected;
    var u, slot := v.conn, v.flight[0];
    assert v.flight == [slot] && slot == Slot(slot.query, Running(slot.stage.batches));
    BatchProgress(u.locked, u.accepted, u.delivered, u.notes, slot.query, slot.stage.batches);
    GoneEffected(u.accepted, slot, v.effects);
  }

  lemma DropKeeps(c: Client, v: View)
    requires Sound(c, v) && Fits(c, v, Dropping)
    ensures Sound(c, After(c, v, Dropping))
  {
    hide Books, Progress, Effected;
    var u, slot := v.conn, v.flight[0];
    assert v.flight == [slot];
    DropProgress(u.locked, u.accepted, u.delivered, u.notes, slot);
    GoneEffected(u.accepted, slot, v.effects);
  }

  lemma AnswerKeeps(c: Client, v: View)
    requires Sound(c, v) && Fits(c, v, Answering)
    ensures Sound(c, After(c, v, Answering))
  {
    hide Books, Progress, Effected;
    var u, slot := v.conn, v.flight[0];
    assert v.flight == [slot];
    AnswerProgress(u.locked, u.accepted, u.delivered, u.notes, slot);
    GoneEffected(u.accepted, slot, v.effects);
  }

  lemma QuitKeeps(c: Client, v: View)
    requires Sound(c, v)
    ensures Sound(c, After(c, v, Quitting))
  {
    hide After, Books, Progress, Effected;
    AfterQuitting(c, v);
  }

  lemma AfterQuitting(c: Client, v: View)
    ensures After(c, v, Quitting) == v.(conn := v.conn.(quitting := true)) && After(c, v, Staying) == v
  {
  }

  lemma MoveKeeps(c: Client, v: View, m: Move)
    requires Sound(c, v) && Fits(c, v, m)
    ensures Sound(c, After(c, v, m))
  {
    hide Sound, After;
    match m
    case Pushing(q) => PushKeeps(c, v, q);
    case Posting => PostKeeps(c, v);
    case Refusing => RefuseKeeps(c, v);
    case Delivering => DeliverKeeps(c, v);
    case Quitting => QuitKeeps(c, v);
    case Staying => AfterQuitting(c, v);
    case Staging(stage) => StageKeeps(c, v, stage);
    case Batching => BatchKeeps(c, v);
    case Dropping => DropKeeps(c, v);
    case Answering => AnswerKeeps(c, v);
  }
}
