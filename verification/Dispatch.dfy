/**
  The query dispatch protocol between the main loop, the data threads and the
  life cycle of a client.

  A state holds what the three parties share: the `pending` and `notifications`
  deques and the `Locked` and `quitting` flags of every client, the client list,
  the vector of clients awaiting exit, the Reducer's list, the queue and the
  program counter of every data thread, and the owner of `query_mute`.  Four
  logs (`pushed`, `accepted`, `delivered`, `effects`) record what happened; no
  step reads them.  A label names one atomic step of one party; a run is any
  sequence of enabled labels, so it covers every interleaving, every number of
  threads and every choice of thread.
 */
module Dispatch {
  import opened Sequences
  import opened Wrappers

  type Client = nat

  /** The internal user that owns expire and future queries; it is never listed. */
  const GLOBAL: Client := 0

  /** QUERY_FLAGS_QUIET and QUERY_FLAGS_GLOBAL; every other flag behaves as Plain. */
  datatype Flags = Plain | Quiet | Broadcast

  /** `number` is the position of the query among those its owner pushed;
      `formed` is false when its access code is DBL_INVALID_FORMAT. */
  datatype Query = Query(owner: Client, number: nat, flags: Flags, formed: bool)

  /** A result in a notification deque: the n-th partial batch, or the final one. */
  datatype Note = Partial(query: Query, batch: nat) | Final(query: Query)

  datatype Conn = Conn(
    pending: seq<Query>, locked: bool, notes: seq<Note>, quitting: bool,
    pushed: seq<Query>, accepted: seq<Query>, delivered: seq<Note>)

  /** Where a query is on its way through a thread. */
  datatype Stage = Queued | Took | Running(batches: nat) | Ran(interrupted: bool)

  datatype Phase = Idle | Busy(query: Query, stage: Stage)

  datatype Worker = Worker(queue: seq<Query>, phase: Phase)

  datatype State = State(
    clients: map<Client, Conn>, listed: set<Client>, awaiting: seq<Client>,
    reducer: seq<Client>, freed: seq<Client>, workers: seq<Worker>,
    mute: Option<nat>, effects: seq<Query>)

  datatype Label =
    | AddUser(c: Client)
    | Push(c: Client, flags: Flags, formed: bool)
    | Post(c: Client, w: nat)
    | Refuse(c: Client)
    | Deliver(c: Client)
    | Disconnect(c: Client)
    | ForceExit(i: nat)
    | Apply
    | Take(w: nat)
    | Begin(w: nat)
    | Batch(w: nat)
    | End(w: nat, interrupted: bool)
    | Attach(w: nat)

  const NEW_CONN := Conn([], false, [], false, [], [], [])

  predicate Init(s: State) {
    && s.clients == map[GLOBAL := NEW_CONN]
    && s.listed == {} && s.awaiting == [] && s.reducer == [] && s.freed == []
    && |s.workers| > 0 && (forall w :: 0 <= w < |s.workers| ==> s.workers[w] == Worker([], Idle))
    && s.mute == None && s.effects == []
  }

  /** The object behind `c` exists: it was created and has not been deleted. */
  predicate Live(s: State, c: Client) {
    c in s.clients && c !in s.freed
  }

  /** The test at the head of the loop in GetPending: everybody else is skipped.
      The Global user is taken whenever it has something pending. */
  predicate Eligible(s: State, c: Client)
    requires c in s.clients
  {
    var u := s.clients[c];
    if c == GLOBAL then u.pending != []
    else c in s.listed && (u.quitting || (u.pending != [] && !u.locked))
  }

  predicate Enabled(s: State, l: Label) {
    match l
    case AddUser(c) => c !in s.clients
    case Push(c, flags, formed) => Live(s, c) && (c != GLOBAL ==> flags == Plain)
    case Post(c, w) => Live(s, c) && Eligible(s, c) && s.clients[c].pending != [] && w < |s.workers|
    case Refuse(c) => Live(s, c) && Eligible(s, c) && s.clients[c].pending != []
    case Deliver(c) => c in s.clients && c in s.listed && !s.clients[c].quitting && s.clients[c].notes != []
    case Disconnect(c) => Live(s, c)
    case ForceExit(i) =>
      i < |s.awaiting| && s.awaiting[i] in s.clients
      && s.clients[s.awaiting[i]].quitting && !s.clients[s.awaiting[i]].locked
    case Apply => true
    case Take(w) => w < |s.workers| && s.workers[w].phase.Idle? && s.workers[w].queue != []
    case Begin(w) => Stands(s, w) && s.workers[w].phase.stage.Took? && s.mute.None?
    case Batch(w) => Stands(s, w) && s.workers[w].phase.stage.Running? && s.workers[w].phase.query.formed
    case End(w, interrupted) =>
      Stands(s, w) && s.workers[w].phase.stage.Running?
      && (interrupted ==> s.workers[w].phase.query.formed)
    case Attach(w) => Stands(s, w) && s.workers[w].phase.stage.Ran?
  }

  /** Thread `w` holds a query whose owner's object can be reached. */
  predicate Stands(s: State, w: nat) {
    w < |s.workers| && s.workers[w].phase.Busy? && s.workers[w].phase.query.owner in s.clients
  }

  /** True while the thread's status flag is set. */
  predicate IsBusy(k: Worker) {
    k.phase.Busy? && !k.phase.stage.Ran?
  }

  /** The thread a query goes to: the first one that is not busy, or any one when all are.
      A post may go to any thread as far as `Enabled` is concerned, because the flags are
      read one by one while the threads go on. */
  ghost predicate Picked(s: State, w: nat) {
    && w < |s.workers|
    && if IsBusy(s.workers[w]) then forall k :: 0 <= k < |s.workers| ==> IsBusy(s.workers[k])
       else forall k :: 0 <= k < w ==> IsBusy(s.workers[k])
  }

  function Do(s: State, l: Label): (t: State)
    requires Enabled(s, l)
  {
    match l
    case AddUser(c) => s.(clients := s.clients[c := NEW_CONN], listed := s.listed + {c})
    case Push(c, flags, formed) =>
      var u := s.clients[c];
      if u.quitting then s else
      var q := Query(c, |u.pushed|, flags, formed);
      With(s, c, u.(pending := u.pending + [q], pushed := u.pushed + [q]))
    case Post(c, w) =>
      var u := s.clients[c];
      var q := u.pending[0];
      var k := s.workers[w];
      With(s, c, u.(locked := c != GLOBAL || u.locked, pending := u.pending[1..], accepted := u.accepted + [q]))
        .(workers := s.workers[w := k.(queue := k.queue + [q])])
    case Refuse(c) =>
      // The database of the query is closing: an error is sent, the lock is dropped.
      var u := s.clients[c];
      With(s, c, u.(locked := false, pending := u.pending[1..]))
    case Deliver(c) =>
      var u := s.clients[c];
      With(s, c, u.(notes := u.notes[1..], delivered := u.delivered + [u.notes[0]],
                    locked := u.locked && u.notes[0].Partial?))
    case Disconnect(c) =>
      var u := s.clients[c];
      if u.quitting || c == GLOBAL then s else
      var t := With(s, c, u.(quitting := true)).(listed := s.listed - {c});
      if !u.locked then t.(reducer := s.reducer + [c]) else t.(awaiting := s.awaiting + [c])
    case ForceExit(i) =>
      s.(reducer := s.reducer + [s.awaiting[i]], awaiting := s.awaiting[..i] + s.awaiting[i + 1..])
    case Apply => s.(freed := s.freed + Distinct(s.reducer), reducer := [])
    case Take(w) =>
      var k := s.workers[w];
      s.(workers := s.workers[w := Worker(k.queue[1..], Busy(k.queue[0], Took))])
    case Begin(w) =>
      var q := s.workers[w].phase.query;
      AtStage(s, w, Running(0)).(mute := Some(w), effects := s.effects + (if q.formed then [q] else []))
    case Batch(w) =>
      var q, n := s.workers[w].phase.query, s.workers[w].phase.stage.batches + 1;
      Noted(AtStage(s, w, Running(n)), q.owner, Partial(q, n))
    case End(w, interrupted) => AtStage(s, w, Ran(interrupted)).(mute := None)
    case Attach(w) =>
      var q := s.workers[w].phase.query;
      var t := s.(workers := s.workers[w := s.workers[w].(phase := Idle)]);
      if q.flags.Quiet? then t
      else if q.flags.Broadcast? then With(t, q.owner, t.clients[q.owner].(locked := false))
      else if s.workers[w].phase.stage.interrupted then t
      else Noted(t, q.owner, Final(q))
  }

  function With(s: State, c: Client, u: Conn): State {
    s.(clients := s.clients[c := u])
  }

  function AtStage(s: State, w: nat, stage: Stage): State
    requires w < |s.workers| && s.workers[w].phase.Busy?
  {
    s.(workers := s.workers[w := s.workers[w].(phase := s.workers[w].phase.(stage := stage))])
  }

  function Noted(s: State, c: Client, n: Note): State
    requires c in s.clients
  {
    With(s, c, s.clients[c].(notes := s.clients[c].notes + [n]))
  }

  /** The objects of a list in order of their first occurrence. */
  function Distinct(xs: seq<Client>): (r: seq<Client>)
    ensures forall x :: x in r <==> x in xs
    ensures NoDuplicates(r)
    ensures NoDuplicates(xs) ==> r == xs
  {
    if xs == [] then [] else
    var last := |xs| - 1;
    var r := Distinct(xs[..last]);
    assert xs == xs[..last] + [xs[last]];
    if xs[last] in r then r else r + [xs[last]]
  }

  // ------------------------------------------------------------------ runs

  /** The states of a run together with the labels that lead from each to the next. */
  ghost predicate Execution(states: seq<State>, labels: seq<Label>) {
    && |states| == |labels| + 1
    && Init(states[0])
    && Follows(states, labels)
  }

  ghost predicate Follows(states: seq<State>, labels: seq<Label>)
    requires |states| == |labels| + 1
  {
    forall i :: 0 <= i < |labels| ==> Enabled(states[i], labels[i]) && states[i + 1] == Do(states[i], labels[i])
  }

  /** A post goes to the thread picked in that state. */
  ghost predicate ByPick(s: State, l: Label) {
    l.Post? ==> Picked(s, l.w)
  }

  ghost predicate AllByPick(states: seq<State>, labels: seq<Label>)
    requires |states| == |labels| + 1
  {
    forall i :: 0 <= i < |labels| ==> ByPick(states[i], labels[i])
  }
}
