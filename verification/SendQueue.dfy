/**
  The send queue of a socket, and the loop that hands it to the kernel.

  Whatever the kernel accepts, nothing is lost, repeated or reordered: what was accepted
  followed by what is queued stays the same stream.  One cast makes an exception, which
  takes a queue of four gigabytes, less one byte, or more; when it can strike is stated
  exactly.
 */
module SendQueue {
  import opened Bytes
  import opened CInt
  import opened Sequences

  /** The stream that queued elements stand for. */
  function Contents(data: seq<Text>): Text {
    if data == [] then [] else data[0] + Contents(data[1..])
  }

  function Sum(data: seq<Text>): nat {
    if data == [] then 0 else |data[0]| + Sum(data[1..])
  }

  lemma {:induction false} ContentsLength(data: seq<Text>)
    ensures |Contents(data)| == Sum(data)
  {
    if data != [] {
      ContentsLength(data[1..]);
    }
  }

  lemma {:induction false} ContentsConcat(a: seq<Text>, b: seq<Text>)
    ensures Contents(a + b) == Contents(a) + Contents(b) && Sum(a + b) == Sum(a) + Sum(b)
  {
    if a == [] {
      assert a + b == b && [] + Contents(b) == Contents(b);
    } else {
      ContentsConcat(a[1..], b);
      assert a == [a[0]] + a[1..];
      ContentsStep(a[0], a[1..], b);
    }
  }

  lemma ContentsCons(x: Text, rest: seq<Text>)
    ensures Contents([x] + rest) == x + Contents(rest) && Sum([x] + rest) == |x| + Sum(rest)
  {
    assert ([x] + rest)[1..] == rest;
  }

  lemma ContentsStep(x: Text, rest: seq<Text>, b: seq<Text>)
    requires Contents(rest + b) == Contents(rest) + Contents(b) && Sum(rest + b) == Sum(rest) + Sum(b)
    ensures Contents([x] + rest + b) == Contents([x] + rest) + Contents(b)
    ensures Sum([x] + rest + b) == Sum([x] + rest) + Sum(b)
  {
    hide Contents, Sum;
    ContentsCons(x, rest);
    ContentsCons(x, rest + b);
    Regroup([x], rest, b);
    Regroup(x, Contents(rest), Contents(b));
  }

  /** The queue without its first `n` bytes. */
  function Drained(data: seq<Text>, n: nat): seq<Text>
    requires n <= Sum(data)
  {
    if n == 0 then data
    else if |data[0]| <= n then Drained(data[1..], n - |data[0]|)
    else [data[0][n..]] + data[1..]
  }

  lemma {:induction false} DrainedSum(data: seq<Text>, n: nat)
    requires n <= Sum(data)
    ensures Sum(Drained(data, n)) == Sum(data) - n
  {
    if n > 0 {
      if |data[0]| <= n {
        DrainedSum(data[1..], n - |data[0]|);
      } else {
        assert ([data[0][n..]] + data[1..])[1..] == data[1..];
      }
    }
  }

  lemma {:induction false} DrainedContents(data: seq<Text>, n: nat)
    requires n <= Sum(data)
    ensures n <= |Contents(data)| && Contents(Drained(data, n)) == Contents(data)[n..]
  {
    ContentsLength(data);
    if n > 0 {
      if |data[0]| <= n {
        DrainedContents(data[1..], n - |data[0]|);
      } else {
        var rest := [data[0][n..]] + data[1..];
        assert rest[1..] == data[1..];
        assert Contents(data)[n..] == data[0][n..] + Contents(data[1..]);
      }
    }
  }

  class Queue {
    var data: seq<Text>
    var nbytes: nat

    ghost predicate Valid()
      reads this
    {
      nbytes == Sum(data)
    }

    function Stream(): Text
      reads this
    {
      Contents(data)
    }

    constructor ()
      ensures Valid() && data == []
    {
      data, nbytes := [], 0;
    }

    method PopFront()
      requires Valid() && data != []
      modifies this
      ensures Valid() && data == old(data[1..])
    {
      nbytes := nbytes - |data[0]|;
      data := data[1..];
    }

    method EraseFront(n: nat)
      requires Valid() && data != [] && n <= |data[0]|
      modifies this
      ensures Valid() && data == [old(data[0][n..])] + old(data[1..])
    {
      nbytes := nbytes - n;
      assert ([data[0][n..]] + data[1..])[1..] == data[1..];
      data := [data[0][n..]] + data[1..];
    }

    method PushFront(newdata: Text)
      requires Valid()
      modifies this
      ensures Valid() && data == [newdata] + old(data) && Stream() == newdata + old(Stream())
    {
      assert ([newdata] + data)[1..] == data;
      data := [newdata] + data;
      nbytes := nbytes + |newdata|;
    }

    method PushBack(newdata: Text)
      requires Valid()
      modifies this
      ensures Valid() && data == old(data) + [newdata] && Stream() == old(Stream()) + newdata
    {
      ContentsConcat(data, [newdata]);
      assert [newdata][1..] == [] && newdata + [] == newdata;
      data := data + [newdata];
      nbytes := nbytes + |newdata|;
    }

    method Clear()
      modifies this
      ensures Valid() && data == []
    {
      data, nbytes := [], 0;
    }

    method MoveAll(other: Queue)
      requires Valid() && other.Valid() && other != this
      modifies this, other
      ensures Valid() && Stream() == old(Stream()) + old(other.Stream())
      ensures other.Valid() && other.data == []
    {
      ContentsConcat(data, other.data);
      nbytes := nbytes + other.nbytes;
      data := data + other.data;
      other.Clear();
    }

    /** Takes the first `n` bytes off the stream, element by element. */
    method Drain(n: nat)
      requires Valid() && n <= nbytes
      modifies this
      ensures Valid() && data == Drained(old(data), n)
      ensures n <= |old(Stream())| && Stream() == old(Stream())[n..]
    {
      var rv := n;
      ContentsLength(data);
      DrainedContents(data, n);
      while rv > 0 && nbytes > 0
        invariant Valid() && 0 <= rv <= nbytes && Drained(data, rv) == Drained(old(data), n)
        decreases |data|, rv
      {
        if |data[0]| <= rv {
          rv := rv - |data[0]|;
          PopFront();
        } else {
          EraseFront(rv);
          rv := 0;
        }
      }
    }
  }

  /** Coalescing before an encrypted write: the stream stays the same, and afterwards the
      first element is big enough or it is all there is. */
  method QuickDispatch(sendq: Queue, target: nat)
    requires sendq.Valid()
    modifies sendq
    ensures sendq.Valid() && sendq.Stream() == old(sendq.Stream()) && sendq.nbytes == old(sendq.nbytes)
    ensures |old(sendq.data)| > 1 ==>
              sendq.data != [] && (|sendq.data[0]| >= target || |sendq.data[0]| == sendq.nbytes)
    ensures |sendq.data| <= |old(sendq.data)|
  {
    if |sendq.data| <= 1 || |sendq.data[0]| >= target {
      return;
    }
    ContentsLength(sendq.data);
    var tmp := sendq.data[0];
    sendq.PopFront();
    while sendq.nbytes > 0 && |tmp| < target
      invariant sendq.Valid() && tmp + sendq.Stream() == old(sendq.Stream())
      invariant |sendq.data| < |old(sendq.data)|
      decreases |sendq.data|
    {
      assert tmp + (sendq.data[0] + Contents(sendq.data[1..])) == tmp + sendq.data[0] + Contents(sendq.data[1..]);
      tmp := tmp + sendq.data[0];
      sendq.PopFront();
    }
    sendq.PushFront(tmp);
    ContentsLength(sendq.data);
  }

  // ------------------------------------------------- the kernel

  /** What one writev does: it accepts some bytes, or it fails in one of three ways. */
  datatype Outcome = Wrote(n: nat) | WouldBlock | Interrupted | Broken

  /** The result of writev, which accepts no more than it is offered. */
  function ResultOf(o: Outcome, offered: nat): (rv: int)
    ensures -1 <= rv <= offered && rv <= INT_MAX
  {
    match o
    case Wrote(n) => if n <= offered && n <= INT_MAX then n else if offered <= INT_MAX then offered else INT_MAX
    case _ => -1
  }

  /** Bytes offered in one call: those of the first `limit` elements. */
  function Offered(data: seq<Text>, limit: nat): (r: Text)
    ensures r <= Contents(data) && |r| <= Sum(data)
  {
    var k := if |data| > limit then limit else |data|;
    assert data == data[..k] + data[k..];
    ContentsConcat(data[..k], data[k..]);
    ContentsLength(data);
    Contents(data[..k])
  }

  /** A result that the queue takes for all of its bytes though it is not. */
  predicate Mistaken(bytes: nat, rv: int) {
    rv == AsInt(bytes) && rv != bytes
  }

  /** The queue after one round of the loop. */
  function AfterRound(limit: nat, data: seq<Text>, o: Outcome): seq<Text> {
    var rv := ResultOf(o, |Offered(data, limit)|);
    if rv == AsInt(Sum(data)) then [] else if rv > 0 then Drained(data, rv) else data
  }

  /** The queue after the rounds that meet `outcomes`, in one call or over several. */
  function Behind(limit: nat, data: seq<Text>, outcomes: seq<Outcome>): seq<Text> {
    if outcomes == [] then data else
    var last := |outcomes| - 1;
    AfterRound(limit, Behind(limit, data, outcomes[..last]), outcomes[last])
  }

  /** The last of these rounds left the socket waiting. */
  predicate LastWaits(limit: nat, data: seq<Text>, outcomes: seq<Outcome>)
    requires outcomes != []
  {
    var last := |outcomes| - 1;
    Waits(limit, Behind(limit, data, outcomes[..last]), outcomes[last])
  }

  /** The last of these rounds ended in an error. */
  predicate LastFails(limit: nat, data: seq<Text>, outcomes: seq<Outcome>)
    requires outcomes != []
  {
    var last := |outcomes| - 1;
    Fails(limit, Behind(limit, data, outcomes[..last]), outcomes[last])
  }

  /** In one of these rounds a result is mistaken for the size of the queue. */
  predicate Loses(limit: nat, data: seq<Text>, outcomes: seq<Outcome>) {
    outcomes != [] &&
    var last := |outcomes| - 1;
    var before := Behind(limit, data, outcomes[..last]);
    Loses(limit, data, outcomes[..last])
    || Mistaken(Sum(before), ResultOf(outcomes[last], |Offered(before, limit)|))
  }

  /** The round ends with the socket not ready for more: the kernel said so, or it accepted
      some bytes and, counted in 32 bits, not all it was offered. */
  predicate Waits(limit: nat, data: seq<Text>, o: Outcome) {
    var offered := |Offered(data, limit)|;
    var rv := ResultOf(o, offered);
    rv != AsInt(Sum(data)) && (o.WouldBlock? || 0 < rv < AsInt(offered))
  }

  /** The round ends with an error: the connection is closed or broken. */
  predicate Fails(limit: nat, data: seq<Text>, o: Outcome) {
    var rv := ResultOf(o, |Offered(data, limit)|);
    rv != AsInt(Sum(data)) && (o.Broken? || rv == 0)
  }

  /** One round more. */
  lemma RoundsStep(limit: nat, data: seq<Text>, outcomes: seq<Outcome>, n: nat)
    requires n < |outcomes|
    ensures var before, o, done := Behind(limit, data, outcomes[..n]), outcomes[n], outcomes[..n + 1];
            && Behind(limit, data, done) == AfterRound(limit, before, o)
            && (Loses(limit, data, done) <==>
                  Loses(limit, data, outcomes[..n]) || Mistaken(Sum(before), ResultOf(o, |Offered(before, limit)|)))
            && (LastWaits(limit, data, done) <==> Waits(limit, before, o))
            && (LastFails(limit, data, done) <==> Fails(limit, before, o))
  {
    assert outcomes[..n + 1][..n] == outcomes[..n];
  }

  lemma NoRounds(limit: nat, data: seq<Text>, outcomes: seq<Outcome>)
    ensures outcomes[..0] == [] && Behind(limit, data, outcomes[..0]) == data && !Loses(limit, data, outcomes[..0])
    ensures Sum([]) == 0
  {
  }

  datatype Event = EdgeWrite | WriteBlock | NoReadNoWrite

  class Socket {
    /** The bytes the kernel has accepted so far. */
    var wire: Text
    var error: bool
    var mask: Event
    const iovMax: nat

    constructor (limit: nat)
      requires limit > 0
      ensures wire == [] && !error && mask == EdgeWrite && iovMax == limit
    {
      wire, error, mask, iovMax := [], false, EdgeWrite, limit;
    }

    /** One round of the loop: a writev and the accounting for its result. */
    method Round(sq: Queue, o: Outcome) returns (event: Event)
      requires sq.Valid() && sq.nbytes > 0 && !error
      modifies this, sq
      ensures sq.Valid() && mask == old(mask) && sq.data == AfterRound(iovMax, old(sq.data), o)
      ensures var rv := ResultOf(o, |old(Offered(sq.data, iovMax))|);
              && (wire + sq.Stream() == old(wire) + old(sq.Stream()) <==> !Mistaken(old(sq.nbytes), rv))
              && (Mistaken(old(sq.nbytes), rv) ==> sq.data == [])
              && sq.nbytes <= old(sq.nbytes) && (rv > 0 ==> sq.nbytes < old(sq.nbytes))
              && old(wire) <= wire && |wire| - |old(wire)| == (if rv > 0 then rv else 0)
      ensures error <==> Fails(iovMax, old(sq.data), o)
      ensures event == if Waits(iovMax, old(sq.data), o) then WriteBlock else EdgeWrite
    {
      event := EdgeWrite;
      ghost var before := sq.Stream();
      ContentsLength(sq.data);
      var offered := Offered(sq.data, iovMax);
      var rvMax := AsInt(|offered|);
      var rv := ResultOf(o, |offered|);
      if rv > 0 {
        wire := wire + offered[..rv];
      }
      if rv == AsInt(sq.nbytes) {
        sq.Clear();
        Cleared(old(wire), wire, before, rv);
      } else if rv > 0 {
        if rv < rvMax {
          event := WriteBlock;
        }
        sq.Drain(rv);
        ContentsLength(sq.data);
        assert old(wire) + before[..rv] + before[rv..] == old(wire) + before;
      } else if rv == 0 {
        error := true;
      } else if o.WouldBlock? {
        event := WriteBlock;
      } else if o.Interrupted? {
      } else {
        error := true;
      }
    }

    static lemma Cleared(wire: Text, wire': Text, stream: Text, rv: int)
      requires rv <= |stream| && wire' == wire + (if rv > 0 then stream[..rv] else []) && |stream| > 0
      ensures wire' + [] == wire + stream <==> rv == |stream|
    {
      if rv == |stream| {
        assert stream[..rv] == stream;
      } else {
        assert |wire'| < |wire + stream|;
      }
    }

    /** The whole loop over any results of writev, of which `outcomes` are those that come
        before it is left or cut off. The stream stays the same exactly if no round was
        mistaken, and so for every queue below four gigabytes less one byte. */
    method DispatchSendQueue(sq: Queue, outcomes: seq<Outcome>) returns (rounds: nat)
      requires sq.Valid()
      modifies this, sq
      ensures sq.Valid() && rounds <= |outcomes| && old(wire) <= wire
      ensures sq.data == Behind(iovMax, old(sq.data), outcomes[..rounds])
      ensures wire + sq.Stream() == old(wire) + old(sq.Stream()) <==> !Loses(iovMax, old(sq.data), outcomes[..rounds])
      ensures old(sq.nbytes) < UINT_MAX ==> wire + sq.Stream() == old(wire) + old(sq.Stream())
      ensures old(mask) == WriteBlock ==> rounds == 0 && wire == old(wire) && sq.data == old(sq.data) && mask == old(mask)
      ensures old(mask) != WriteBlock && rounds < |outcomes| ==> error || sq.nbytes == 0 || mask == WriteBlock
      ensures old(mask) != WriteBlock ==>
                && (forall k :: 0 < k < rounds ==>
                      !LastWaits(iovMax, old(sq.data), outcomes[..k]) && !LastFails(iovMax, old(sq.data), outcomes[..k]))
                && (error <==> old(error) || (rounds > 0 && LastFails(iovMax, old(sq.data), outcomes[..rounds])))
                && mask == (if error then NoReadNoWrite
                            else if rounds > 0 && LastWaits(iovMax, old(sq.data), outcomes[..rounds]) then WriteBlock
                            else EdgeWrite)
    {
      hide Behind, Loses, Waits, Fails, LastWaits, LastFails, AfterRound, Mistaken, Contents, Sum;
      rounds := 0;
      ghost var data := sq.data;
      NoRounds(iovMax, data, outcomes);
      if mask == WriteBlock {
        return;
      }
      var event := EdgeWrite;
      while !error && sq.nbytes > 0 && event == EdgeWrite && rounds < |outcomes|
        invariant sq.Valid() && rounds <= |outcomes| && old(wire) <= wire
        invariant rounds == 0 ==> event == EdgeWrite && error == old(error)
        invariant rounds > 0 ==> !old(error)
        invariant rounds > 0 ==> (error <==> LastFails(iovMax, data, outcomes[..rounds]))
        invariant rounds > 0 ==> event == if LastWaits(iovMax, data, outcomes[..rounds]) then WriteBlock else EdgeWrite
        invariant forall k :: 0 < k < rounds ==>
                    !LastWaits(iovMax, data, outcomes[..k]) && !LastFails(iovMax, data, outcomes[..k])
        invariant sq.data == Behind(iovMax, data, outcomes[..rounds])
        invariant wire + sq.Stream() == old(wire) + old(sq.Stream()) <==> !Loses(iovMax, data, outcomes[..rounds])
        invariant Loses(iovMax, data, outcomes[..rounds]) ==> sq.nbytes == 0
        decreases |outcomes| - rounds
      {
        RoundsStep(iovMax, data, outcomes, rounds);
        event := Round(sq, outcomes[rounds]);
        rounds := rounds + 1;
      }
      mask := if error then NoReadNoWrite else event;
      if old(sq.nbytes) < UINT_MAX {
        SmallNeverLoses(iovMax, data, outcomes[..rounds]);
      }
    }
  }

  // ------------------------------------------------- when the cast loses data

  const UINT_MAX := 0xFFFF_FFFF

  /** Some result of the next writev is mistaken exactly if the queue holds four gigabytes
      less one byte or more, and its size as an int is -1, which stands for every failure,
      or a number of bytes that may be accepted. */
  lemma MistakenExactly(limit: nat, data: seq<Text>)
    ensures var bytes, offered := Sum(data), |Offered(data, limit)|;
            (exists o :: Mistaken(bytes, ResultOf(o, offered)))
            <==> bytes >= UINT_MAX && -1 <= AsInt(bytes) <= offered
  {
    var bytes, offered := Sum(data), |Offered(data, limit)|;
    if bytes >= UINT_MAX && -1 <= AsInt(bytes) <= offered {
      var o := if AsInt(bytes) == -1 then WouldBlock else Wrote(AsInt(bytes));
      assert Mistaken(bytes, ResultOf(o, offered));
    }
  }

  lemma RoundShrinks(limit: nat, data: seq<Text>, o: Outcome)
    ensures Sum(AfterRound(limit, data, o)) <= Sum(data)
  {
    var rv := ResultOf(o, |Offered(data, limit)|);
    if rv > 0 {
      DrainedSum(data, rv);
    }
  }

  lemma {:induction false} SmallNeverLoses(limit: nat, data: seq<Text>, outcomes: seq<Outcome>)
    requires Sum(data) < UINT_MAX
    ensures !Loses(limit, data, outcomes) && Sum(Behind(limit, data, outcomes)) <= Sum(data)
  {
    if outcomes != [] {
      var last := |outcomes| - 1;
      var before := Behind(limit, data, outcomes[..last]);
      SmallNeverLoses(limit, data, outcomes[..last]);
      RoundShrinks(limit, before, outcomes[last]);
      if Mistaken(Sum(before), ResultOf(outcomes[last], |Offered(before, limit)|)) {
        MistakenExactly(limit, before);
      }
    }
  }

  ghost predicate NoneEmpty(data: seq<Text>) {
    forall i :: 0 <= i < |data| ==> data[i] != []
  }

  /** No round with these results ends in an error. */
  ghost predicate Alive(outcomes: seq<Outcome>) {
    forall i :: 0 <= i < |outcomes| ==> outcomes[i] != Broken && outcomes[i] != Wrote(0)
  }

  lemma FirstOffered(limit: nat, data: seq<Text>)
    requires limit > 0 && NoneEmpty(data) && data != []
    ensures |Offered(data, limit)| > 0 && ResultOf(Wrote(1), |Offered(data, limit)|) == 1
  {
    var k := if |data| > limit then limit else |data|;
    assert data[..k][0] == data[0];
  }

  /** One byte accepted: the queue is one byte shorter, and still has no empty element. */
  lemma OneByte(limit: nat, data: seq<Text>)
    requires limit > 0 && NoneEmpty(data) && data != [] && AsInt(Sum(data)) != 1
    ensures var r := AfterRound(limit, data, Wrote(1));
            NoneEmpty(r) && Sum(r) == Sum(data) - 1
  {
    FirstOffered(limit, data);
    DrainedSum(data, 1);
    if |data[0]| == 1 {
      assert Drained(data, 1) == data[1..];
    }
  }

  /** A result that is mistaken, or else takes the queue one byte nearer to one. */
  function Strike(data: seq<Text>): Outcome {
    if AsInt(Sum(data)) == -1 then WouldBlock else Wrote(1)
  }

  lemma StrikeStep(limit: nat, data: seq<Text>)
    requires limit > 0 && NoneEmpty(data) && Sum(data) >= UINT_MAX
    requires !Mistaken(Sum(data), ResultOf(Strike(data), |Offered(data, limit)|))
    ensures var r := AfterRound(limit, data, Strike(data));
            NoneEmpty(r) && UINT_MAX <= Sum(r) < Sum(data)
  {
    assert Strike(data) == Wrote(1);
    FirstOffered(limit, data);
    OneByte(limit, data);
  }

  lemma OneMore(limit: nat, data: seq<Text>, outcomes: seq<Outcome>, o: Outcome)
    ensures var left := Behind(limit, data, outcomes);
            && Behind(limit, data, outcomes + [o]) == AfterRound(limit, left, o)
            && (Mistaken(Sum(left), ResultOf(o, |Offered(left, limit)|)) ==> Loses(limit, data, outcomes + [o]))
  {
    assert (outcomes + [o])[..|outcomes|] == outcomes;
  }

  lemma {:induction false} LoseFrom(limit: nat, data: seq<Text>, outcomes: seq<Outcome>, left: seq<Text>) returns (more: seq<Outcome>)
    requires limit > 0 && Alive(outcomes) && left == Behind(limit, data, outcomes)
    requires NoneEmpty(left) && Sum(left) >= UINT_MAX
    ensures Alive(more) && Loses(limit, data, more)
    decreases Sum(left)
  {
    var o := Strike(left);
    more := outcomes + [o];
    OneMore(limit, data, outcomes, o);
    if !Mistaken(Sum(left), ResultOf(o, |Offered(left, limit)|)) {
      StrikeStep(limit, left);
      more := LoseFrom(limit, data, more, AfterRound(limit, left, o));
    }
  }

  /** Over any number of calls and without any error, a queue of non-empty elements can
      lose data exactly if it holds four gigabytes less one byte or more. */
  lemma LosesExactly(limit: nat, data: seq<Text>)
    requires limit > 0 && NoneEmpty(data)
    ensures (exists outcomes :: Alive(outcomes) && Loses(limit, data, outcomes)) <==> Sum(data) >= UINT_MAX
  {
    if Sum(data) >= UINT_MAX {
      var _ := LoseFrom(limit, data, [], data);
    } else {
      forall outcomes ensures !Loses(limit, data, outcomes) {
        SmallNeverLoses(limit, data, outcomes);
      }
    }
  }

  // ------------------------------------------------- when the socket waits

  /** What waiting should mean: the kernel is not ready, or it took only a part. */
  predicate Blocked(offered: nat, o: Outcome) {
    o.WouldBlock? || 0 < ResultOf(o, offered) < offered
  }

  /** Leaving mistaken results aside, the socket waits for exactly these reasons if what is
      offered can be counted in an int, and otherwise only if both its number of bytes and
      that of the queue look like the highest int. */
  lemma WaitsExactly(limit: nat, data: seq<Text>)
    ensures var bytes, offered := Sum(data), |Offered(data, limit)|;
            (forall o :: !Mistaken(bytes, ResultOf(o, offered)) ==> (Waits(limit, data, o) <==> Blocked(offered, o)))
            <==> offered <= INT_MAX || (AsInt(offered) == INT_MAX && AsInt(bytes) == INT_MAX)
  {
    var bytes, offered := Sum(data), |Offered(data, limit)|;
    if offered > INT_MAX && !(AsInt(offered) == INT_MAX && AsInt(bytes) == INT_MAX) {
      var n := if AsInt(bytes) == INT_MAX then INT_MAX - 1 else INT_MAX;
      var o := Wrote(n);
      assert ResultOf(o, offered) == n;
      assert !Mistaken(bytes, n) && Blocked(offered, o) && !Waits(limit, data, o);
    }
  }
}
