/**
  The per-client command queue with its MULTI batches.

  A client has a list of commands to execute and a second list that collects a
  batch while MULTI is active; MRUN executes the batch.  `AddTo` and `Turn` are
  the specification of CommandQueue::Add and of one client's turn in
  CommandQueue::Flush; the class runs them over all clients.
 */
module CommandQueue {

  datatype Kind = PONG | MULTI | MRUN | MULTIRESET | Ordinary

  datatype Command = Command(kind: Kind, id: nat)

  /** An executed command and the list it was taken from. */
  datatype Event = FromList(command: Command) | FromBatch(command: Command)

  /** `listed` and `queued` log what entered the two lists, `trace` what was executed;
      `mark` is the length of `queued` when MULTI last became active. */
  datatype User = User(
    pendingList: seq<Command>, pendingMulti: seq<Command>, multi: bool, multiRunning: bool,
    quitting: bool, listed: seq<Command>, queued: seq<Command>, mark: nat, trace: seq<Event>)

  /** What the rest of the server contributes to one turn: whether the client's lock
      is held, whether the command is stopped before its handler, the commands the
      handler adds (the target of an alias, the steps of a login), whether it quits. */
  datatype Circumstance = Circumstance(locked: bool, blocked: bool, adds: seq<nat>, quits: bool)

  datatype Label = Receive(command: Command) | Flush(at: Circumstance) | Reset

  const FRESH := User([], [], false, false, false, [], [], 0, [])

  // ------------------------------------------------- one client

  function AddTo(u: User, c: Command): User {
    if u.quitting then u
    else if c.kind.PONG? then Listed(u, c)
    else if c.kind.MULTIRESET? then Listed(u.(pendingMulti := [], multiRunning := false), c)
    else if u.multi && c.kind.MULTI? then u
    else if u.multi && !c.kind.MRUN? then u.(pendingMulti := u.pendingMulti + [c], queued := u.queued + [c])
    else if c.kind.MRUN? && !u.multi then u
    else Listed(u, c)
  }

  function Listed(u: User, c: Command): User {
    u.(pendingList := u.pendingList + [c], listed := u.listed + [c])
  }

  function AddAll(u: User, ids: seq<nat>): User
    decreases |ids|
  {
    if ids == [] then u else AddAll(AddTo(u, Command(Ordinary, ids[0])), ids[1..])
  }

  /** CommandHandler::Execute as far as this queue is concerned. */
  function Execute(u: User, e: Event, at: Circumstance): User {
    var v := u.(trace := u.trace + [e]);
    if at.blocked then v else
    match e.command.kind
    case MULTI => if u.multiRunning then v else v.(multi := true, mark := if u.multi then u.mark else |u.queued|)
    case MULTIRESET => if u.multi then v.(multi := false, multiRunning := false) else v
    case Ordinary =>
      var w := AddAll(v, at.adds);
      if at.quits then w.(quitting := true) else w
    case _ => v
  }

  predicate Starts(u: User) {
    u.multi && u.pendingList != [] && u.pendingList[0].kind.MRUN?
  }

  function Turn(u: User, at: Circumstance): User {
    if u.quitting then u.(pendingList := [])
    else if u.pendingList == [] then u
    else
      var c := u.pendingList[0];
      if c.kind.PONG? then Execute(u.(pendingList := u.pendingList[1..]), FromList(c), at)
      else if at.locked then u
      else
        var v := if Starts(u) then u.(multiRunning := true, multi := false) else u;
        if v.multiRunning then
          if v.pendingMulti == [] then v.(multiRunning := false)
          else
            var w := Execute(v, FromBatch(v.pendingMulti[0]), at);
            w.(pendingMulti := if w.pendingMulti == [] then [] else w.pendingMulti[1..])
        else Execute(v.(pendingList := v.pendingList[1..]), FromList(c), at)
  }

  function Step(u: User, l: Label): User {
    match l
    case Receive(c) => AddTo(u, c)
    case Flush(at) => Turn(u, at)
    case Reset => u.(pendingList := [])
  }

  // ------------------------------------------------- all clients

  /** The clients of the server, each with its own lists. */
  class Queue {
    var users: seq<User>

    constructor ()
      ensures users == []
    {
      users := [];
    }

    method Add(i: nat, c: Command)
      requires i < |users|
      modifies this
      ensures users == old(users)[i := AddTo(old(users)[i], c)]
    {
      var u := users[i];
      if u.quitting {
        return;
      }
      if c.kind.PONG? {
        users := users[i := Listed(u, c)];
        return;
      }
      if c.kind.MULTIRESET? {
        u := u.(pendingMulti := [], multiRunning := false);
      } else {
        if u.multi && c.kind.MULTI? {
          return;
        }
        if u.multi && !c.kind.MRUN? {
          users := users[i := u.(pendingMulti := u.pendingMulti + [c], queued := u.queued + [c])];
          return;
        }
        if c.kind.MRUN? && !u.multi {
          return;
        }
      }
      users := users[i := Listed(u, c)];
    }

    method ResetAll()
      modifies this
      ensures |users| == |old(users)|
      ensures forall i :: 0 <= i < |users| ==> users[i] == Step(old(users)[i], Reset)
    {
      for i := 0 to |users|
        invariant |users| == |old(users)|
        invariant forall j :: 0 <= j < |users| ==> users[j] == if j < i then Step(old(users)[j], Reset) else old(users)[j]
      {
        users := users[i := users[i].(pendingList := [])];
      }
    }

    /** One pass: every client gets one turn, in order, up to and including the
        first one whose next command is PONG. */
    method Flush(at: seq<Circumstance>) returns (flag: bool, turns: nat)
      requires |at| == |users|
      modifies this
      ensures turns <= |users| == |old(users)|
      ensures forall i :: 0 <= i < |users| ==> users[i] == if i < turns then Turn(old(users)[i], at[i]) else old(users)[i]
      ensures forall i :: 0 <= i < turns - 1 ==> !PongFirst(old(users)[i])
      ensures turns < |users| ==> turns > 0 && PongFirst(old(users)[turns - 1])
    {
      flag, turns := false, 0;
      while turns < |users|
        invariant turns <= |users| == |old(users)|
        invariant forall i :: 0 <= i < |users| ==> users[i] == if i < turns then Turn(old(users)[i], at[i]) else old(users)[i]
        invariant forall i :: 0 <= i < turns ==> !PongFirst(old(users)[i])
      {
        var i, u, env := turns, users[turns], at[turns];
        turns := turns + 1;
        if u.quitting {
          u := u.(pendingList := []);
          users := users[i := u];
        }
        if u.pendingList == [] {
          continue;
        }
        var event := u.pendingList[0];
        if event.kind.PONG? {
          users := users[i := Execute(u.(pendingList := u.pendingList[1..]), FromList(event), env)];
          return true, turns;
        }
        if env.locked {
          continue;
        }
        if u.multi && event.kind.MRUN? {
          u := u.(multiRunning := true, multi := false);
        }
        if u.multiRunning {
          if u.pendingMulti == [] {
            users := users[i := u.(multiRunning := false)];
            continue;
          }
          u := Execute(u, FromBatch(u.pendingMulti[0]), env);
          users := users[i := u.(pendingMulti := if u.pendingMulti == [] then [] else u.pendingMulti[1..])];
          flag := true;
          continue;
        }
        users := users[i := Execute(u.(pendingList := u.pendingList[1..]), FromList(event), env)];
        flag := true;
      }
    }
  }

  predicate PongFirst(u: User) {
    !u.quitting && u.pendingList != [] && u.pendingList[0].kind.PONG?
  }

  // ------------------------------------------------- what every step keeps

  /** A running batch keeps MRUN at the head of the list and MULTI inactive; only
      ordinary commands are ever collected in a batch. */
  ghost predicate Inv(u: User) {
    && (u.multiRunning && !u.quitting ==> u.pendingList != [] && u.pendingList[0].kind.MRUN? && !u.multi)
    && (forall c :: c in u.pendingMulti ==> c.kind.Ordinary?)
  }

  /** The label neither resets anything nor makes the client quit. */
  predicate Calm(l: Label) {
    match l
    case Receive(c) => !c.kind.MULTIRESET?
    case Flush(at) => !at.quits
    case Reset => false
  }

  /** The commands a handler adds. */
  function Commands(ids: seq<nat>): seq<Command> {
    if ids == [] then [] else [Command(Ordinary, ids[0])] + Commands(ids[1..])
  }

  lemma {:induction false} AddAllShape(u: User, ids: seq<nat>) returns (added: seq<Command>)
    ensures added == Commands(ids) && forall c :: c in added ==> c.kind.Ordinary?
    ensures var v := AddAll(u, ids);
            if u.quitting then v == u
            else if u.multi then v == u.(pendingMulti := u.pendingMulti + added, queued := u.queued + added)
            else v == u.(pendingList := u.pendingList + added, listed := u.listed + added)
    decreases |ids|
  {
    added := [];
    if ids != [] {
      var c := Command(Ordinary, ids[0]);
      var rest := AddAllShape(AddTo(u, c), ids[1..]);
      added := [c] + rest;
      assert u.pendingMulti + [c] + rest == u.pendingMulti + added && u.queued + [c] + rest == u.queued + added;
      assert u.pendingList + [c] + rest == u.pendingList + added && u.listed + [c] + rest == u.listed + added;
    } else {
      assert u.pendingMulti + [] == u.pendingMulti && u.queued + [] == u.queued;
      assert u.pendingList + [] == u.pendingList && u.listed + [] == u.listed;
    }
  }

  lemma InvStep(u: User, l: Label)
    requires Inv(u) && !l.Reset?
    ensures Inv(Step(u, l))
  {
    if l.Flush? && !u.quitting && u.pendingList != [] {
      var at := l.at;
      var v := if Starts(u) then u.(multiRunning := true, multi := false) else u;
      var ran := if v.multiRunning then v else v.(pendingList := v.pendingList[1..]);
      var e := if v.multiRunning && v.pendingMulti != [] then FromBatch(v.pendingMulti[0]) else FromList(u.pendingList[0]);
      var _ := AddAllShape(ran.(trace := ran.trace + [e]), at.adds);
      var popped := u.(pendingList := u.pendingList[1..]);
      var _ := AddAllShape(popped.(trace := popped.trace + [FromList(u.pendingList[0])]), at.adds);
    }
  }

  // ------------------------------------------------- a batch runs undisturbed

  function Batch(commands: seq<Command>): seq<Event> {
    seq(|commands|, i requires 0 <= i < |commands| => FromBatch(commands[i]))
  }

  /** The turn that starts a batch, or any step while one is running. */
  predicate InBatch(u: User, l: Label) {
    u.multiRunning || (Starts(u) && l.Flush? && !l.at.locked)
  }

  /** The list has only grown, by what is new in the log of commands that joined it. */
  ghost predicate Grown(u: User, v: User) {
    && u.listed <= v.listed && v.pendingList == u.pendingList + v.listed[|u.listed|..]
  }

  lemma GrownTwice(u: User, v: User, w: User)
    requires Grown(u, v) && Grown(v, w)
    ensures Grown(u, w)
  {
    assert w.listed[|u.listed|..] == v.listed[|u.listed|..] + w.listed[|v.listed|..];
  }

  lemma GrownBy(u: User, v: User, added: seq<Command>)
    requires v.pendingList == u.pendingList + added && v.listed == u.listed + added
    ensures Grown(u, v)
  {
  }

  lemma BatchStep(u: User, l: Label)
    requires Inv(u) && !u.quitting && Calm(l) && InBatch(u, l)
    ensures var v := Step(u, l);
            && !v.quitting && !v.multi && Grown(u, v)
            && (if v.trace == u.trace then v.pendingMulti == u.pendingMulti && (v.multiRunning || u.pendingMulti == [])
                else v.multiRunning && u.pendingMulti != [] && v.pendingMulti == u.pendingMulti[1..]
                     && v.trace == u.trace + [FromBatch(u.pendingMulti[0])])
            && (l.Flush? && !l.at.locked ==> v.trace != u.trace || !v.multiRunning)
  {
    var added: seq<Command> := [];
    if l.Flush? && !l.at.locked && u.pendingMulti != [] {
      var v := u.(multiRunning := true, multi := false);
      added := AddAllShape(v.(trace := v.trace + [FromBatch(v.pendingMulti[0])]), l.at.adds);
      added := if l.at.blocked then [] else added;
    } else if l.Receive? {
      added := if u.multi || l.command.kind.MRUN? then [] else [l.command];
    }
    assert u.pendingList + [] == u.pendingList && u.listed + [] == u.listed;
    GrownBy(u, Step(u, l), added);
  }

  ghost predicate Run(states: seq<User>, labels: seq<Label>) {
    |states| == |labels| + 1 && forall i :: 0 <= i < |labels| ==> states[i + 1] == Step(states[i], labels[i])
  }

  /** From the turn that starts a batch to the one that ends it, whatever else the
      client sends and whatever the handlers add: what is executed is the batch, in
      the order it was collected, with nothing in between; the list only grows. */
  lemma {:induction false} BatchRunsAlone(states: seq<User>, labels: seq<Label>, i: nat, j: nat) returns (n: nat)
    requires Run(states, labels) && i < j < |states|
    requires Inv(states[i]) && !states[i].quitting && !states[i].multiRunning && InBatch(states[i], labels[i])
    requires forall k :: i <= k < j ==> Calm(labels[k])
    requires forall k :: i < k < j ==> states[k].multiRunning
    ensures var batch := states[i].pendingMulti;
            && n <= |batch|
            && states[j].trace == states[i].trace + Batch(batch[..n]) && states[j].pendingMulti == batch[n..]
            && (!states[j].multiRunning ==> n == |batch|)
    ensures Grown(states[i], states[j]) && Inv(states[j]) && !states[j].quitting && !states[j].multi
  {
    var batch := states[i].pendingMulti;
    n := 0;
    var k := j - 1;
    assert states[k + 1] == Step(states[k], labels[k]);
    if i < k {
      n := BatchRunsAlone(states, labels, i, k);
    } else {
      assert Batch(batch[..0]) == [] && batch[0..] == batch;
      assert states[i].pendingList + [] == states[i].pendingList;
    }
    InvStep(states[k], labels[k]);
    BatchStep(states[k], labels[k]);
    GrownTwice(states[i], states[k], states[j]);
    if states[j].trace != states[k].trace {
      assert batch[..n + 1] == batch[..n] + [batch[n]];
      assert Batch(batch[..n + 1]) == Batch(batch[..n]) + [FromBatch(batch[n])];
      n := n + 1;
    }
  }

  /** The batch is over, and MRUN waits to be taken off the list. */
  ghost predicate Over(u: User) {
    && !u.multi && !u.multiRunning && !u.quitting && u.pendingMulti == []
    && u.pendingList != [] && u.pendingList[0].kind.MRUN?
  }

  /** A turn of the client that its lock does not stop. */
  predicate UnlockedTurn(l: Label) {
    l.Flush? && !l.at.locked
  }

  lemma OverStep(u: User, l: Label)
    requires Over(u) && Calm(l) && !UnlockedTurn(l)
    ensures var v := Step(u, l);
            Over(v) && v.trace == u.trace && Grown(u, v)
  {
    var added := if l.Receive? && !l.command.kind.MRUN? then [l.command] else [];
    assert u.pendingList + [] == u.pendingList && u.listed + [] == u.listed;
    GrownBy(u, Step(u, l), added);
  }

  lemma {:induction false} OverStays(states: seq<User>, labels: seq<Label>, i: nat, j: nat)
    requires Run(states, labels) && i <= j < |states| && Over(states[i])
    requires forall k :: i <= k < j ==> Calm(labels[k]) && !UnlockedTurn(labels[k])
    ensures Over(states[j]) && states[j].trace == states[i].trace && Grown(states[i], states[j])
  {
    if i < j {
      var k := j - 1;
      OverStays(states, labels, i, k);
      assert states[k + 1] == Step(states[k], labels[k]);
      OverStep(states[k], labels[k]);
      GrownTwice(states[i], states[k], states[j]);
    } else {
      assert states[i].pendingList + [] == states[i].pendingList;
    }
  }

  lemma MrunTaken(u: User, at: Circumstance)
    requires Over(u) && !at.locked
    ensures Turn(u, at) == u.(pendingList := u.pendingList[1..], trace := u.trace + [FromList(u.pendingList[0])])
  {
  }

  /** From the turn that starts a batch to the first unlocked turn after its end: what is
      executed is the batch, then MRUN; the list is then what stood behind MRUN, followed
      by what has joined since. */
  lemma BatchThenList(states: seq<User>, labels: seq<Label>, i: nat, j: nat, m: nat)
    requires Run(states, labels) && i < j <= m < |labels|
    requires Inv(states[i]) && !states[i].quitting && !states[i].multiRunning && InBatch(states[i], labels[i])
    requires forall k :: i <= k < m ==> Calm(labels[k])
    requires (forall k :: i < k < j ==> states[k].multiRunning) && !states[j].multiRunning
    requires (forall k :: j <= k < m ==> !UnlockedTurn(labels[k])) && UnlockedTurn(labels[m])
    ensures var u, v := states[i], states[m + 1];
            && u.pendingList != [] && u.pendingList[0].kind.MRUN?
            && v.trace == u.trace + Batch(u.pendingMulti) + [FromList(u.pendingList[0])]
            && u.listed <= v.listed && v.pendingList == u.pendingList[1..] + v.listed[|u.listed|..]
            && v.pendingMulti == [] && !v.multi && !v.multiRunning && !v.quitting
  {
    var u := states[i];
    var n := BatchRunsAlone(states, labels, i, j);
    assert u.pendingMulti[..n] == u.pendingMulti && u.pendingMulti[n..] == [];
    OverStays(states, labels, j, m);
    GrownTwice(u, states[j], states[m]);
    assert states[m + 1] == Step(states[m], labels[m]);
    MrunTaken(states[m], labels[m].at);
    assert (u.pendingList + states[m].listed[|u.listed|..])[1..] == u.pendingList[1..] + states[m].listed[|u.listed|..];
  }

  // ------------------------------------------------- both lists are queues

  function OutOfList(trace: seq<Event>): seq<Command> {
    if trace == [] then [] else
    var last := |trace| - 1;
    OutOfList(trace[..last]) + (if trace[last].FromList? then [trace[last].command] else [])
  }

  function OutOfBatch(trace: seq<Event>): seq<Command> {
    if trace == [] then [] else
    var last := |trace| - 1;
    OutOfBatch(trace[..last]) + (if trace[last].FromBatch? then [trace[last].command] else [])
  }

  /** What entered a list is what was executed from it, followed by what is left. */
  ghost predicate Fifo(entered: seq<Command>, executed: seq<Command>, left: seq<Command>) {
    entered == executed + left
  }

  lemma FifoJoin(entered: seq<Command>, executed: seq<Command>, left: seq<Command>, more: seq<Command>)
    requires Fifo(entered, executed, left)
    ensures Fifo(entered + more, executed, left + more)
  {
  }

  lemma FifoTake(entered: seq<Command>, executed: seq<Command>, left: seq<Command>)
    requires Fifo(entered, executed, left) && left != []
    ensures Fifo(entered, executed + [left[0]], left[1..])
  {
  }

  ghost predicate Conserved(u: User) {
    && Fifo(u.listed, OutOfList(u.trace), u.pendingList)
    && Fifo(u.queued, OutOfBatch(u.trace), u.pendingMulti)
  }

  /** `collected` is what was queued since the mark. */
  ghost predicate Since(collected: seq<Command>, queued: seq<Command>, mark: nat) {
    mark <= |queued| && collected == queued[mark..]
  }

  lemma SinceJoin(collected: seq<Command>, queued: seq<Command>, mark: nat, c: Command)
    requires Since(collected, queued, mark)
    ensures Since(collected + [c], queued + [c], mark)
  {
  }

  lemma SinceNow(queued: seq<Command>)
    ensures Since([], queued, |queued|)
  {
  }

  /** A batch holds exactly what was collected since MULTI became active. */
  ghost predicate OwnBatch(u: User) {
    && (!u.multi && !u.multiRunning ==> u.pendingMulti == [])
    && (u.multi ==> Since(u.pendingMulti, u.queued, u.mark))
  }

  lemma OutAppend(trace: seq<Event>, e: Event)
    ensures OutOfList(trace + [e]) == if e.FromList? then OutOfList(trace) + [e.command] else OutOfList(trace)
    ensures OutOfBatch(trace + [e]) == if e.FromBatch? then OutOfBatch(trace) + [e.command] else OutOfBatch(trace)
  {
    assert (trace + [e])[..|trace|] == trace;
  }

  ghost predicate Regular(u: User) {
    Inv(u) && Conserved(u) && OwnBatch(u) && !u.quitting
  }

  lemma ListedRegular(u: User, c: Command)
    requires Regular(u)
    ensures Regular(Listed(u, c))
  {
    hide Fifo, Since, OutOfList, OutOfBatch;
    FifoJoin(u.listed, OutOfList(u.trace), u.pendingList, [c]);
  }

  lemma CollectedRegular(u: User, c: Command)
    requires Regular(u) && u.multi && c.kind.Ordinary?
    ensures Regular(u.(pendingMulti := u.pendingMulti + [c], queued := u.queued + [c]))
  {
    hide Fifo, Since, OutOfList, OutOfBatch;
    FifoJoin(u.queued, OutOfBatch(u.trace), u.pendingMulti, [c]);
    SinceJoin(u.pendingMulti, u.queued, u.mark, c);
  }

  lemma ReceivedRegular(u: User, c: Command)
    requires Regular(u) && !c.kind.MULTIRESET?
    ensures Regular(AddTo(u, c))
  {
    hide Regular;
    if u.multi && c.kind.Ordinary? {
      CollectedRegular(u, c);
    } else {
      ListedRegular(u, c);
    }
  }

  lemma {:induction false} AddedRegular(u: User, ids: seq<nat>)
    requires Regular(u)
    ensures Regular(AddAll(u, ids))
    decreases |ids|
  {
    if ids != [] {
      ReceivedRegular(u, Command(Ordinary, ids[0]));
      AddedRegular(AddTo(u, Command(Ordinary, ids[0])), ids[1..]);
    }
  }

  lemma PoppedRegular(u: User)
    requires Regular(u) && u.pendingList != [] && !u.multiRunning
    ensures Regular(u.(pendingList := u.pendingList[1..], trace := u.trace + [FromList(u.pendingList[0])]))
  {
    hide Fifo, Since, OutOfList, OutOfBatch;
    OutAppend(u.trace, FromList(u.pendingList[0]));
    FifoTake(u.listed, OutOfList(u.trace), u.pendingList);
  }

  /** MULTI becomes active with nothing collected. */
  lemma MultiRegular(u: User)
    requires Regular(u) && !u.multi && !u.multiRunning
    ensures Regular(u.(multi := true, mark := |u.queued|))
  {
    hide Fifo, Since, OutOfList, OutOfBatch;
    SinceNow(u.queued);
  }

  lemma ExecuteListed(u: User, at: Circumstance)
    requires Regular(u) && u.pendingList != [] && !u.multiRunning && !at.quits && !u.pendingList[0].kind.MULTIRESET?
    ensures Regular(Execute(u.(pendingList := u.pendingList[1..]), FromList(u.pendingList[0]), at))
  {
    hide Regular;
    var w := u.(pendingList := u.pendingList[1..], trace := u.trace + [FromList(u.pendingList[0])]);
    PoppedRegular(u);
    AddedRegular(w, at.adds);
    if u.pendingList[0].kind.MULTI? && !u.multi {
      MultiRegular(w);
    }
  }

  /** Taking the first command off a running batch, while `added` joins the list. */
  lemma BatchTaken(u: User, added: seq<Command>)
    requires Inv(u) && Conserved(u) && !u.quitting && u.multiRunning && u.pendingMulti != []
    ensures Regular(u.(trace := u.trace + [FromBatch(u.pendingMulti[0])], pendingMulti := u.pendingMulti[1..],
                       pendingList := u.pendingList + added, listed := u.listed + added))
  {
    hide Fifo, Since, OutOfList, OutOfBatch;
    OutAppend(u.trace, FromBatch(u.pendingMulti[0]));
    FifoTake(u.queued, OutOfBatch(u.trace), u.pendingMulti);
    FifoJoin(u.listed, OutOfList(u.trace), u.pendingList, added);
  }

  lemma ExecuteBatched(u: User, at: Circumstance)
    requires Inv(u) && Conserved(u) && !u.quitting && u.multiRunning && u.pendingMulti != [] && !at.quits
    ensures var w := Execute(u, FromBatch(u.pendingMulti[0]), at);
            Regular(w.(pendingMulti := u.pendingMulti[1..])) && w.pendingMulti == u.pendingMulti && w.multiRunning
  {
    hide Fifo, Since, OutOfList, OutOfBatch;
    var first := u.pendingMulti[0];
    assert first in u.pendingMulti && first.kind.Ordinary?;
    if at.blocked {
      BatchTaken(u, []);
      assert u.pendingList + [] == u.pendingList && u.listed + [] == u.listed;
    } else {
      var added := AddAllShape(u.(trace := u.trace + [FromBatch(first)]), at.adds);
      BatchTaken(u, added);
    }
  }

  lemma NoResetPending(u: User, l: Label)
    requires forall c :: c in u.pendingList ==> !c.kind.MULTIRESET?
    requires Calm(l)
    ensures forall c :: c in Step(u, l).pendingList ==> !c.kind.MULTIRESET?
  {
    if l.Flush? && u.pendingList != [] {
      var v := if Starts(u) then u.(multiRunning := true, multi := false) else u;
      var popped := u.(pendingList := u.pendingList[1..]);
      if v.pendingMulti != [] {
        var _ := AddAllShape(v.(trace := v.trace + [FromBatch(v.pendingMulti[0])]), l.at.adds);
      }
      var _ := AddAllShape(popped.(trace := popped.trace + [FromList(u.pendingList[0])]), l.at.adds);
    }
  }

  lemma RegularStep(u: User, l: Label)
    requires Regular(u) && Calm(l) && forall c :: c in u.pendingList ==> !c.kind.MULTIRESET?
    ensures Regular(Step(u, l))
  {
    hide Regular;
    match l
    case Receive(c) => ReceivedRegular(u, c);
    case Flush(at) => TurnRegular(u, at);
  }

  lemma TurnRegular(u: User, at: Circumstance)
    requires Regular(u) && !at.quits && forall c :: c in u.pendingList ==> !c.kind.MULTIRESET?
    ensures Regular(Turn(u, at))
  {
    hide Fifo, Since, OutOfList, OutOfBatch;
    if u.pendingList != [] {
      assert u.pendingList[0] in u.pendingList;
      var v := if Starts(u) then u.(multiRunning := true, multi := false) else u;
      if u.pendingList[0].kind.PONG? || (!at.locked && !v.multiRunning) {
        ExecuteListed(u, at);
      } else if v.multiRunning && !at.locked && v.pendingMulti != [] {
        ExecuteBatched(v, at);
      }
    }
  }

  /** In every run without MULTIRESET, global reset or quit, both lists are first-in
      first-out queues that lose nothing, and a batch about to be run holds exactly
      the commands collected since its own MULTI. */
  lemma {:induction false} QueuesKeepOrder(states: seq<User>, labels: seq<Label>, j: nat)
    requires Run(states, labels) && j < |states| && states[0] == FRESH
    requires forall k :: 0 <= k < j ==> Calm(labels[k])
    ensures Regular(states[j]) && forall c :: c in states[j].pendingList ==> !c.kind.MULTIRESET?
  {
    if j > 0 {
      var k := j - 1;
      QueuesKeepOrder(states, labels, k);
      assert states[k + 1] == Step(states[k], labels[k]);
      RegularStep(states[k], labels[k]);
      NoResetPending(states[k], labels[k]);
    }
  }

  // ------------------------------------------------- nothing is lost at the door

  datatype Door = Nowhere | ToList | ToBatch

  /** Where a command belongs, by whether MULTI is active when it comes. */
  function DoorOf(kind: Kind, multi: bool): Door {
    match kind
    case PONG => ToList
    case MULTIRESET => ToList
    case MULTI => if multi then Nowhere else ToList
    case MRUN => if multi then ToList else Nowhere
    case Ordinary => if multi then ToBatch else ToList
  }

  /** The commands that a step from `u` to `v` brings: what is received, or what the handler
      of the command that was carried out adds. */
  function Brought(u: User, l: Label, v: User): seq<Command> {
    match l
    case Receive(c) => [c]
    case Flush(at) =>
      if |v.trace| > |u.trace| && !at.blocked && v.trace[|v.trace| - 1].command.kind.Ordinary? then Commands(at.adds) else []
    case Reset => []
  }

  function Through(cs: seq<Command>, multi: bool, door: Door): seq<Command> {
    if cs == [] then []
    else (if DoorOf(cs[0].kind, multi) == door then [cs[0]] else []) + Through(cs[1..], multi, door)
  }

  /** Everything that came through one door in the first `i` steps, in the order of coming. */
  ghost function Came(states: seq<User>, labels: seq<Label>, i: nat, door: Door): seq<Command>
    requires Run(states, labels) && i <= |labels|
  {
    if i == 0 then []
    else Came(states, labels, i - 1, door)
         + Through(Brought(states[i - 1], labels[i - 1], states[i]), states[i].multi, door)
  }

  lemma {:induction false} OrdinaryThrough(ids: seq<nat>, multi: bool, door: Door)
    ensures Through(Commands(ids), multi, door) == if door == (if multi then ToBatch else ToList) then Commands(ids) else []
  {
    if ids != [] {
      OrdinaryThrough(ids[1..], multi, door);
      assert Commands(ids)[1..] == Commands(ids[1..]);
    }
  }

  lemma OneThrough(c: Command, multi: bool, door: Door)
    ensures Through([c], multi, door) == if DoorOf(c.kind, multi) == door then [c] else []
  {
  }

  /** The two logs grow by what comes through their doors. */
  ghost predicate Logged(u: User, v: User, cs: seq<Command>) {
    && v.listed == u.listed + Through(cs, v.multi, ToList)
    && v.queued == u.queued + Through(cs, v.multi, ToBatch)
  }

  lemma ReceiveLogged(u: User, c: Command)
    requires !u.quitting && !c.kind.MULTIRESET?
    ensures Logged(u, AddTo(u, c), [c])
  {
    OneThrough(c, u.multi, ToList);
    OneThrough(c, u.multi, ToBatch);
  }

  /** Carrying out a command. */
  lemma ExecuteLogged(u: User, e: Event, at: Circumstance)
    requires !u.quitting && !at.quits && !e.command.kind.MULTIRESET?
    ensures var v := Execute(u, e, at);
            && v.trace == u.trace + [e]
            && Logged(u, v, if !at.blocked && e.command.kind.Ordinary? then Commands(at.adds) else [])
  {
    var w := u.(trace := u.trace + [e]);
    if !at.blocked && e.command.kind.Ordinary? {
      var added := AddAllShape(w, at.adds);
      OrdinaryThrough(at.adds, u.multi, ToList);
      OrdinaryThrough(at.adds, u.multi, ToBatch);
    }
  }

  /** Where a turn starts from to carry out a command, and which one it is. */
  lemma TurnLogged(u: User, at: Circumstance)
    requires Inv(u) && !u.quitting && !at.quits && forall c :: c in u.pendingList ==> !c.kind.MULTIRESET?
    ensures var v := Turn(u, at); Logged(u, v, Brought(u, Flush(at), v))
  {
    if u.pendingList != [] {
      var first := u.pendingList[0];
      assert first in u.pendingList;
      var popped := u.(pendingList := u.pendingList[1..]);
      var started := if Starts(u) then u.(multiRunning := true, multi := false) else u;
      if first.kind.PONG? || (!at.locked && !started.multiRunning) {
        ExecuteLogged(popped, FromList(first), at);
      } else if !at.locked && started.pendingMulti != [] {
        var next := started.pendingMulti[0];
        assert next in u.pendingMulti;
        ExecuteLogged(started, FromBatch(next), at);
      }
    }
  }

  lemma StepLogged(u: User, l: Label)
    requires Inv(u) && !u.quitting && Calm(l) && forall c :: c in u.pendingList ==> !c.kind.MULTIRESET?
    ensures Logged(u, Step(u, l), Brought(u, l, Step(u, l)))
  {
    match l
    case Receive(c) => ReceiveLogged(u, c);
    case Flush(at) => TurnLogged(u, at);
  }

  lemma {:induction false} LogsAreWhatCame(states: seq<User>, labels: seq<Label>, i: nat)
    requires Run(states, labels) && i < |states| && states[0] == FRESH
    requires forall k :: 0 <= k < i ==> Calm(labels[k])
    ensures states[i].listed == Came(states, labels, i, ToList)
    ensures states[i].queued == Came(states, labels, i, ToBatch)
  {
    if i > 0 {
      var k := i - 1;
      LogsAreWhatCame(states, labels, k);
      QueuesKeepOrder(states, labels, k);
      assert states[k + 1] == Step(states[k], labels[k]);
      StepLogged(states[k], labels[k]);
    }
  }

  /** In every run without MULTIRESET, global reset or quit: what was carried out from each
      list, followed by what it still holds, is what came for it, in the order of coming. */
  lemma EverythingKept(states: seq<User>, labels: seq<Label>, i: nat)
    requires Run(states, labels) && i < |states| && states[0] == FRESH
    requires forall k :: 0 <= k < i ==> Calm(labels[k])
    ensures OutOfList(states[i].trace) + states[i].pendingList == Came(states, labels, i, ToList)
    ensures OutOfBatch(states[i].trace) + states[i].pendingMulti == Came(states, labels, i, ToBatch)
  {
    QueuesKeepOrder(states, labels, i);
    LogsAreWhatCame(states, labels, i);
  }

  /** All that came, without a MULTI while MULTI was active and an MRUN while it was not. */
  ghost function CameIn(states: seq<User>, labels: seq<Label>, i: nat): multiset<Command>
    requires Run(states, labels) && i <= |labels|
  {
    if i == 0 then multiset{}
    else CameIn(states, labels, i - 1)
         + Admitted(Brought(states[i - 1], labels[i - 1], states[i]), states[i].multi)
  }

  ghost function Admitted(cs: seq<Command>, multi: bool): multiset<Command> {
    if cs == [] then multiset{}
    else (if (cs[0].kind.MULTI? && multi) || (cs[0].kind.MRUN? && !multi) then multiset{} else multiset{cs[0]})
         + Admitted(cs[1..], multi)
  }

  lemma {:induction false} AdmittedThrough(cs: seq<Command>, multi: bool)
    ensures Admitted(cs, multi) == multiset(Through(cs, multi, ToList)) + multiset(Through(cs, multi, ToBatch))
  {
    hide Through, DoorOf;
    ThroughFirst(cs, multi, ToList);
    ThroughFirst(cs, multi, ToBatch);
    if cs != [] {
      AdmittedThrough(cs[1..], multi);
      DoorsOf(cs[0].kind, multi);
    }
  }

  lemma ThroughFirst(cs: seq<Command>, multi: bool, door: Door)
    ensures multiset(Through(cs, multi, door))
         == if cs == [] then multiset{}
            else (if DoorOf(cs[0].kind, multi) == door then multiset{cs[0]} else multiset{})
                 + multiset(Through(cs[1..], multi, door))
  {
  }

  lemma DoorsOf(kind: Kind, multi: bool)
    ensures DoorOf(kind, multi) == Nowhere <==> (kind.MULTI? && multi) || (kind.MRUN? && !multi)
  {
  }

  lemma {:induction false} CameThrough(states: seq<User>, labels: seq<Label>, i: nat)
    requires Run(states, labels) && i <= |labels|
    ensures CameIn(states, labels, i)
         == multiset(Came(states, labels, i, ToList)) + multiset(Came(states, labels, i, ToBatch))
  {
    hide Through, Admitted, Brought;
    if i > 0 {
      CameThrough(states, labels, i - 1);
      AdmittedThrough(Brought(states[i - 1], labels[i - 1], states[i]), states[i].multi);
    }
  }

  function Executed(trace: seq<Event>): seq<Command> {
    seq(|trace|, i requires 0 <= i < |trace| => trace[i].command)
  }

  lemma {:induction false} ExecutedParts(trace: seq<Event>)
    ensures multiset(Executed(trace)) == multiset(OutOfList(trace)) + multiset(OutOfBatch(trace))
  {
    if trace != [] {
      var last := |trace| - 1;
      ExecutedParts(trace[..last]);
      assert trace == trace[..last] + [trace[last]];
      ExecutedMore(trace[..last], trace[last]);
    }
  }

  lemma ExecutedMore(trace: seq<Event>, e: Event)
    requires multiset(Executed(trace)) == multiset(OutOfList(trace)) + multiset(OutOfBatch(trace))
    ensures multiset(Executed(trace + [e])) == multiset(OutOfList(trace + [e])) + multiset(OutOfBatch(trace + [e]))
  {
    hide OutOfList, OutOfBatch;
    OutAppend(trace, e);
    assert Executed(trace + [e]) == Executed(trace) + [e.command];
  }

  /** Nothing is lost and nothing made up: what was admitted is what was carried out and
      what is left. */
  lemma NothingLost(states: seq<User>, labels: seq<Label>, i: nat)
    requires Run(states, labels) && i < |states| && states[0] == FRESH
    requires forall k :: 0 <= k < i ==> Calm(labels[k])
    ensures CameIn(states, labels, i)
         == multiset(Executed(states[i].trace)) + multiset(states[i].pendingList) + multiset(states[i].pendingMulti)
  {
    CameThrough(states, labels, i);
    EverythingKept(states, labels, i);
    ExecutedParts(states[i].trace);
  }

  /** The commands received, without MRUN. */
  function Received(labels: seq<Label>): seq<Command> {
    if labels == [] then [] else
    var last := |labels| - 1;
    Received(labels[..last])
    + (if labels[last].Receive? && !labels[last].command.kind.MRUN? then [labels[last].command] else [])
  }

  /** Nobody asks for MULTI, and no handler adds anything. */
  predicate Bare(l: Label) {
    match l
    case Receive(c) => !c.kind.MULTI? && !c.kind.MULTIRESET?
    case Flush(at) => !at.quits && at.adds == []
    case Reset => false
  }

  ghost predicate Off(u: User) {
    !u.multi && !u.multiRunning && !u.quitting && forall c :: c in u.pendingList ==> !c.kind.MULTI? && !c.kind.MULTIRESET?
  }

  lemma OffStep(u: User, l: Label)
    requires Off(u) && Bare(l)
    ensures Off(Step(u, l)) && Through(Brought(u, l, Step(u, l)), false, ToList) == Received([l])
  {
    assert [l][..0] == [];
    if u.pendingList != [] {
      assert u.pendingList[0] in u.pendingList;
    }
    if l.Receive? {
      OneThrough(l.command, false, ToList);
    }
  }

  /** Without any MULTI the list is simply what was received, except for MRUN. */
  lemma {:induction false} WithoutMulti(states: seq<User>, labels: seq<Label>, i: nat)
    requires Run(states, labels) && i < |states| && states[0] == FRESH
    requires forall k :: 0 <= k < i ==> Bare(labels[k])
    ensures Off(states[i])
    ensures OutOfList(states[i].trace) + states[i].pendingList == Received(labels[..i])
  {
    BareCame(states, labels, i);
    forall k | 0 <= k < i ensures Calm(labels[k]) {
      assert Bare(labels[k]);
    }
    EverythingKept(states, labels, i);
  }

  lemma {:induction false} BareCame(states: seq<User>, labels: seq<Label>, i: nat)
    requires Run(states, labels) && i < |states| && states[0] == FRESH
    requires forall k :: 0 <= k < i ==> Bare(labels[k])
    ensures Off(states[i]) && Came(states, labels, i, ToList) == Received(labels[..i])
  {
    if i > 0 {
      hide Through, Brought, Received, Step;
      var k := i - 1;
      BareCame(states, labels, k);
      assert states[k + 1] == Step(states[k], labels[k]);
      OffStep(states[k], labels[k]);
      ReceivedMore(labels[..k], labels[k]);
      assert labels[..i] == labels[..k] + [labels[k]];
    } else {
      assert labels[..0] == [];
    }
  }

  lemma ReceivedMore(labels: seq<Label>, l: Label)
    ensures Received(labels + [l]) == Received(labels) + Received([l])
  {
    assert (labels + [l])[..|labels|] == labels && [l][..0] == [];
  }

  /** A turn that neither the lock nor an empty list stops carries out exactly one command,
      except for the one that ends a batch; any other turn changes nothing. */
  lemma TurnTakesOne(u: User, at: Circumstance)
    requires !u.quitting
    ensures var v := Turn(u, at);
            if u.pendingList == [] || (at.locked && !u.pendingList[0].kind.PONG?) then v == u
            else if (u.multiRunning || Starts(u)) && !u.pendingList[0].kind.PONG? && u.pendingMulti == [] then
              v.trace == u.trace && !v.multiRunning && v.pendingList == u.pendingList
            else |v.trace| == |u.trace| + 1 && v.trace[..|u.trace|] == u.trace
  {
    if u.pendingList != [] {
      var popped := u.(pendingList := u.pendingList[1..]);
      var started := if Starts(u) then u.(multiRunning := true, multi := false) else u;
      TraceGrows(popped, FromList(u.pendingList[0]), at);
      if started.pendingMulti != [] {
        TraceGrows(started, FromBatch(started.pendingMulti[0]), at);
      }
    }
  }

  lemma TraceGrows(u: User, e: Event, at: Circumstance)
    ensures Execute(u, e, at).trace == u.trace + [e]
  {
    var _ := AddAllShape(u.(trace := u.trace + [e]), at.adds);
  }

  // ------------------------------------------------- what MULTIRESET leaves behind

  /** Commands of an abandoned batch wait to be run by the next one. */
  predicate Stale(u: User) {
    !u.multi && !u.multiRunning && u.pendingMulti != []
  }

  /** A step leaves a stale batch exactly if it carries out a MULTIRESET while MULTI is
      active and something was collected after that MULTIRESET was received. */
  lemma StaleExactly(u: User, l: Label)
    requires Inv(u) && !u.quitting && !Stale(u) && !l.Reset?
    ensures Stale(Step(u, l)) <==>
              l.Flush? && !l.at.locked && !l.at.blocked && u.multi && u.pendingMulti != []
              && u.pendingList != [] && u.pendingList[0].kind.MULTIRESET?
  {
    if l.Flush? && u.pendingList != [] {
      var v := if Starts(u) then u.(multiRunning := true, multi := false) else u;
      var popped := u.(pendingList := u.pendingList[1..]);
      if v.pendingMulti != [] {
        var _ := AddAllShape(v.(trace := v.trace + [FromBatch(v.pendingMulti[0])]), l.at.adds);
        assert v.pendingMulti[0] in v.pendingMulti;
      }
      var _ := AddAllShape(popped.(trace := popped.trace + [FromList(u.pendingList[0])]), l.at.adds);
    }
  }

  /** A batch that is collected while its MULTIRESET waits outlives it. */
  lemma ResetLeaves(a: Command, go: Label)
    requires a.kind.Ordinary? && go == Flush(Circumstance(false, false, [], false))
    ensures var m, r := Command(MULTI, 1), Command(MULTIRESET, 2);
            Step(Step(Step(Step(Step(FRESH, Receive(m)), go), Receive(r)), Receive(a)), go)
            == User([], [a], false, false, false, [m, r], [a], 0, [FromList(m), FromList(r)])
  {
    var s2 := Step(Step(FRESH, Receive(Command(MULTI, 1))), go);
    assert s2.multi && s2.pendingList == [] && s2.trace == [FromList(Command(MULTI, 1))];
    var s4 := Step(Step(s2, Receive(Command(MULTIRESET, 2))), Receive(a));
    assert s4.pendingMulti == [a] && s4.pendingList == [Command(MULTIRESET, 2)];
  }

  /** So a batch can contain a command that was collected for an earlier, reset one. */
  lemma StaleBatch() returns (labels: seq<Label>, states: seq<User>)
    ensures Run(states, labels) && states[0] == FRESH
    ensures var u := states[|labels|];
            Starts(u) && u.pendingMulti == [Command(Ordinary, 7), Command(Ordinary, 8)]
            && u.mark == 1 && u.queued == [Command(Ordinary, 7), Command(Ordinary, 8)]
  {
    var go := Flush(Circumstance(false, false, [], false));
    var a, b := Command(Ordinary, 7), Command(Ordinary, 8);
    labels := [Receive(Command(MULTI, 1)), go, Receive(Command(MULTIRESET, 2)), Receive(a), go,
               Receive(Command(MULTI, 3)), go, Receive(b), Receive(Command(MRUN, 4))];
    var s1 := Step(FRESH, labels[0]);
    var s2 := Step(s1, labels[1]);
    var s3 := Step(s2, labels[2]);
    var s4 := Step(s3, labels[3]);
    ResetLeaves(a, go);
    var s5 := Step(s4, labels[4]);
    assert Stale(s5) && s5.pendingList == [];
    var s6 := Step(s5, labels[5]);
    var s7 := Step(s6, labels[6]);
    assert s7.multi && s7.pendingMulti == [a] && s7.queued == [a] && s7.mark == 1;
    var s8 := Step(s7, labels[7]);
    var s9 := Step(s8, labels[8]);
    states := [FRESH, s1, s2, s3, s4, s5, s6, s7, s8, s9];
  }
}
