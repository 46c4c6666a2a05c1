/**
  The loops the main thread runs over all clients, as the source writes them.
  Each is a run of the protocol's steps, and its contract says what one pass does
  to every client.
 */
module DispatchLoop {
  import opened Dispatch
  import opened Sequences
  import opened DispatchInvariant
  import opened DispatchTheorems

  /** Some sequence of steps, every post to the thread picked for it, leads from `s` to `t`. */
  ghost predicate Reaches(s: State, t: State) {
    exists states: seq<State>, labels: seq<Label> :: Path(states, labels, s, t)
  }

  ghost predicate Path(states: seq<State>, labels: seq<Label>, s: State, t: State) {
    |states| == |labels| + 1 && states[0] == s && states[|labels|] == t && Follows(states, labels) && AllByPick(states, labels)
  }

  lemma ReachesSelf(s: State)
    ensures Reaches(s, s)
  {
    assert Path([s], [], s, s);
  }

  lemma ReachesStep(s: State, t: State, l: Label)
    requires Reaches(s, t) && Enabled(t, l) && ByPick(t, l)
    ensures Reaches(s, Do(t, l))
  {
    var states: seq<State>, labels: seq<Label> :| Path(states, labels, s, t);
    var ss, ls := states + [Do(t, l)], labels + [l];
    forall i | 0 <= i < |ls| ensures Enabled(ss[i], ls[i]) && ByPick(ss[i], ls[i]) && ss[i + 1] == Do(ss[i], ls[i]) {
      if i < |labels| {
        assert Enabled(states[i], labels[i]) && ByPick(states[i], labels[i]) && states[i + 1] == Do(states[i], labels[i]);
      }
    }
    assert Path(ss, ls, s, Do(t, l));
  }

  /** What GetResults does to one client: it delivers the oldest result, if any. */
  function AfterResults(u: Conn): Conn {
    if u.quitting || u.notes == [] then u else Delivered(u)
  }

  /** What GetPending does to one client, given which databases are closing. */
  function AfterPending(u: Conn, closing: Query -> bool): Conn {
    if (!u.quitting && (u.pending == [] || u.locked)) || u.pending == [] then u
    else if closing(u.pending[0]) then u.(locked := false, pending := u.pending[1..])
    else u.(locked := true, pending := u.pending[1..], accepted := u.accepted + [u.pending[0]])
  }

  /** One turn of the main loop for a listed client, in words of what it sees: it gets its
      oldest result if there is one; if it then has no unanswered query and another one is
      pending, that one is taken, and runs unless its database is closing; it is left waiting
      exactly if a query runs for it. */
  lemma TurnOfClient(u: Conn, closing: Query -> bool)
    requires !u.quitting
    ensures var v := AfterPending(AfterResults(u), closing);
            var waits := u.locked && (u.notes == [] || u.notes[0].Partial?);
            var served := !waits && u.pending != [];
            && v.delivered + v.notes == u.delivered + u.notes
            && |v.delivered| == |u.delivered| + (if u.notes == [] then 0 else 1)
            && (if served then [u.pending[0]] + v.pending == u.pending else v.pending == u.pending)
            && v.accepted == u.accepted + (if served && !closing(u.pending[0]) then [u.pending[0]] else [])
            && (v.locked <==> waits || (served && !closing(u.pending[0])))
            && v.pushed == u.pushed && !v.quitting
  {
    if u.notes != [] {
      assert u.delivered + [u.notes[0]] + u.notes[1..] == u.delivered + u.notes;
    }
  }

  /** `t` is what a pass over the clients in `done` makes of `s`, each by `f`. */
  ghost predicate Passed(s: State, t: State, done: seq<Client>, f: Conn -> Conn) {
    && t.listed == s.listed && t.freed == s.freed && t.clients.Keys == s.clients.Keys
    && |t.workers| == |s.workers|
    && forall c :: c in s.clients ==> t.clients[c] == if c in done then f(s.clients[c]) else s.clients[c]
  }

  lemma PassedOne(s: State, t: State, t': State, users: seq<Client>, i: nat, f: Conn -> Conn)
    requires i < |users| && NoDuplicates(users) && Passed(s, t, users[..i], f) && users[i] in s.clients
    requires t'.listed == t.listed && t'.freed == t.freed && |t'.workers| == |t.workers|
    requires t'.clients == t.clients[users[i] := f(t.clients[users[i]])]
    ensures Passed(s, t', users[..i + 1], f)
  {
    assert users[..i + 1] == users[..i] + [users[i]];
    assert users[i] !in users[..i];
  }

  lemma PassedNone(s: State, t: State, users: seq<Client>, i: nat, f: Conn -> Conn)
    requires i < |users| && NoDuplicates(users) && Passed(s, t, users[..i], f) && users[i] in s.clients
    requires f(t.clients[users[i]]) == t.clients[users[i]]
    ensures Passed(s, t, users[..i + 1], f)
  {
    PassedOne(s, t, t, users, i, f);
  }

  /** A pass over the listed clients changes those, each by `f`, and no others. */
  lemma PassedAll(s: State, t: State, users: seq<Client>, f: Conn -> Conn)
    requires Passed(s, t, users[..|users|], f) && forall c :: c in users <==> c in s.listed
    ensures t.clients == map c | c in s.clients :: if c in s.listed then f(s.clients[c]) else s.clients[c]
  {
    assert users[..|users|] == users;
  }

  class DataFlush {
    var state: State

    constructor (s: State)
      ensures state == s
    {
      state := s;
    }

    /** One round of the loop over the clients: one result is delivered, if there is one. */
    method ResultsFor(users: seq<Client>, i: nat, ghost s: State)
      requires i < |users| && NoDuplicates(users) && users[i] in state.listed && users[i] in s.clients
      requires Inv(state) && Reaches(s, state) && Passed(s, state, users[..i], AfterResults)
      modifies this
      ensures Inv(state) && Reaches(s, state) && Passed(s, state, users[..i + 1], AfterResults)
    {
      hide Inv, Reaches;
      var c := users[i];
      var u := state.clients[c];
      ListedLive(state, c);
      ghost var before := state;
      if !u.quitting && u.notes != [] {
        InvStep(state, Deliver(c));
        ReachesStep(s, state, Deliver(c));
        state := Do(state, Deliver(c));
        PassedOne(s, before, state, users, i, AfterResults);
      } else {
        PassedNone(s, state, users, i, AfterResults);
      }
    }

    method GetResults(users: seq<Client>)
      requires Inv(state) && NoDuplicates(users) && (forall c :: c in users <==> c in state.listed)
      modifies this
      ensures Inv(state) && Reaches(old(state), state)
      ensures state.clients == map c | c in old(state).clients ::
                if c in old(state).listed then AfterResults(old(state).clients[c]) else old(state).clients[c]
    {
      hide Inv, Reaches;
      ghost var s := state;
      ReachesSelf(s);
      for i := 0 to |users|
        invariant Inv(state) && Reaches(s, state) && Passed(s, state, users[..i], AfterResults)
      {
        ListedLive(s, users[i]);
        ResultsFor(users, i, s);
      }
      PassedAll(s, state, users, AfterResults);
    }

    /** The first thread that is not busy, or else the one drawn at random. */
    method PickThread(random: nat) returns (w: nat)
      requires random < |state.workers|
      ensures w < |state.workers|
      ensures Picked(state, w) && (IsBusy(state.workers[w]) ==> w == random)
    {
      for k := 0 to |state.workers|
        invariant forall j :: 0 <= j < k ==> IsBusy(state.workers[j])
      {
        if !IsBusy(state.workers[k]) {
          return k;
        }
      }
      return random;
    }

    method Process(c: Client, closing: Query -> bool, random: nat)
      requires Inv(state) && Live(state, c) && Eligible(state, c) && state.clients[c].pending != []
      requires random < |state.workers|
      modifies this
      ensures Inv(state) && (exists l :: Enabled(old(state), l) && ByPick(old(state), l) && state == Do(old(state), l))
      ensures var u := old(state).clients[c];
              state.clients == old(state).clients[c :=
                if closing(u.pending[0]) then u.(locked := false, pending := u.pending[1..])
                else u.(locked := c != GLOBAL || u.locked, pending := u.pending[1..], accepted := u.accepted + [u.pending[0]])]
      ensures state.listed == old(state).listed && |state.workers| == |old(state).workers|
      ensures state.freed == old(state).freed
    {
      hide Inv;
      ghost var s := state;
      if closing(state.clients[c].pending[0]) {
        Refused(s, c);
        state := Do(state, Refuse(c));
        assert Enabled(s, Refuse(c)) && ByPick(s, Refuse(c)) && state == Do(s, Refuse(c));
      } else {
        var w := PickThread(random);
        Posted(s, c, w);
        state := Do(state, Post(c, w));
        assert Enabled(s, Post(c, w)) && ByPick(s, Post(c, w)) && state == Do(s, Post(c, w));
      }
    }

    /** One round of the loop over the clients: one query is posted, if there is one. */
    method PendingFor(users: seq<Client>, i: nat, closing: Query -> bool, random: Client -> nat, ghost s: State,
        ghost f: Conn -> Conn)
      requires i < |users| && NoDuplicates(users) && users[i] in state.listed && users[i] in s.clients
      requires Inv(state) && Reaches(s, state) && Passed(s, state, users[..i], f)
      requires random(users[i]) < |state.workers| && forall u :: f(u) == AfterPending(u, closing)
      modifies this
      ensures Inv(state) && Reaches(s, state) && Passed(s, state, users[..i + 1], f)
    {
      hide Inv, Reaches;
      var c := users[i];
      var u := state.clients[c];
      ListedLive(state, c);
      if u.quitting || (u.pending != [] && !u.locked) {
        ghost var before := state;
        Process(c, closing, random(c));
        ghost var l :| Enabled(before, l) && ByPick(before, l) && state == Do(before, l);
        ReachesStep(s, before, l);
        PassedOne(s, before, state, users, i, f);
      } else {
        PassedNone(s, state, users, i, f);
      }
    }

    /** The loop over the clients. */
    method ClientsPending(users: seq<Client>, closing: Query -> bool, random: Client -> nat)
      requires Inv(state) && NoDuplicates(users) && (forall c :: c in users <==> c in state.listed)
      requires forall c :: random(c) < |state.workers|
      modifies this
      ensures Inv(state) && Reaches(old(state), state)
      ensures state.clients == map c | c in old(state).clients ::
                if c in old(state).listed then AfterPending(old(state).clients[c], closing) else old(state).clients[c]
    {
      hide Inv, Reaches;
      ghost var s := state;
      ghost var f := (u: Conn) => AfterPending(u, closing);
      ReachesSelf(s);
      for i := 0 to |users|
        invariant Inv(state) && Reaches(s, state) && Passed(s, state, users[..i], f)
      {
        ListedLive(s, users[i]);
        PendingFor(users, i, closing, random, s, f);
      }
      PassedAll(s, state, users, f);
    }

    /** `random` gives the number drawn for the one query that a pass may post for a client. */
    method GetPending(users: seq<Client>, closing: Query -> bool, random: Client -> nat)
      requires Inv(state) && NoDuplicates(users) && (forall c :: c in users <==> c in state.listed)
      requires forall c :: random(c) < |state.workers|
      modifies this
      ensures Inv(state) && Reaches(old(state), state)
      ensures old(state).clients[GLOBAL].pending == [] ==>
                state.clients == map c | c in old(state).clients ::
                  if c in old(state).listed then AfterPending(old(state).clients[c], closing) else old(state).clients[c]
      ensures old(state).clients[GLOBAL].pending != [] ==>
                && state.clients.Keys == old(state).clients.Keys
                && state.clients[GLOBAL].pending == old(state).clients[GLOBAL].pending[1..]
                && forall c :: c in old(state).clients && c != GLOBAL ==> state.clients[c] == old(state).clients[c]
    {
      hide Inv, Reaches;
      GlobalLive(state);
      if state.clients[GLOBAL].pending != [] {
        ghost var s := state;
        ReachesSelf(s);
        Process(GLOBAL, closing, random(GLOBAL));
        ghost var l :| Enabled(s, l) && ByPick(s, l) && state == Do(s, l);
        ReachesStep(s, s, l);
        return;
      }
      ClientsPending(users, closing, random);
    }
  }

  lemma Posted(s: State, c: Client, w: nat)
    requires Inv(s) && Enabled(s, Post(c, w))
    ensures var u, t := s.clients[c], Do(s, Post(c, w));
            && t.clients == s.clients[c := u.(locked := c != GLOBAL || u.locked, pending := u.pending[1..],
                                              accepted := u.accepted + [u.pending[0]])]
            && t.listed == s.listed && |t.workers| == |s.workers| && t.freed == s.freed && Inv(t)
  {
    InvStep(s, Post(c, w));
  }

  lemma Refused(s: State, c: Client)
    requires Inv(s) && Enabled(s, Refuse(c))
    ensures var u, t := s.clients[c], Do(s, Refuse(c));
            && t.clients == s.clients[c := u.(locked := false, pending := u.pending[1..])]
            && t.listed == s.listed && |t.workers| == |s.workers| && t.freed == s.freed && Inv(t)
  {
    InvStep(s, Refuse(c));
  }

  lemma ListedLive(s: State, c: Client)
    requires Inv(s) && c in s.listed
    ensures Live(s, c) && !s.clients[c].quitting && c != GLOBAL
  {
  }

  lemma GlobalLive(s: State)
    requires Inv(s)
    ensures Live(s, GLOBAL) && GLOBAL !in s.listed
  {
  }
}
