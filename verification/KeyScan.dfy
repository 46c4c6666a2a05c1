/**
  The paginated scan over all database keys and the framing of its batches.

  The scan walks the keys in database order, selects those of the wanted type,
  number and name, cuts out the requested page and emits it in batches; the final
  reply carries what is left.  The flush turns each batch into protocol messages.
 */
module KeyScan {
  import opened Wrappers
  import opened Bytes
  import opened Sequences
  import opened CaseFold
  import Converter
  import Glob
  import Handlers
  import NodeStream

  const ITER_LIMIT := 50

  datatype Query = Query(mask: Text, select: nat, kind: Text, offset: int, limit: int)

  /** A batch of results: `partial` for all but the last, `subresult` its number. */
  datatype Reply = Reply(items: seq<Text>, partial: bool, subresult: nat)

  // ------------------------------------------------- which keys are selected

  /** The user's key in a database key of the wanted kind; None for any other key.
      Only the parts that are there are compared. */
  function Selected(q: Query, m: Text, raw: Text): Option<Text>
    requires |m| == 256
  {
    var tokens := NodeStream.Rest(raw, COLON, false, 0);
    var key := if |tokens| > 0 then Converter.FromBin(tokens[0]) else [];
    if |tokens| > 0 && !Glob.Matches(m, CString(key), CString(q.mask)) then None
    else if |tokens| > 1 && tokens[1] != Handlers.Decimal(q.select) then None
    else if |tokens| > 2 && tokens[2] != q.kind then None
    else Some(key)
  }

  method Filter(q: Query, m: Text, raw: Text) returns (key: Option<Text>)
    requires CaseMap(m)
    ensures key == Selected(q, m, raw)
  {
    var stream := new NodeStream.Stream(raw, COLON, false);
    ghost var tokens := stream.Remaining();
    var keyAsString, counter, skip := [], 0, false;
    var ok, token := stream.Extract();
    while ok && !skip
      invariant fresh(stream) && counter <= |tokens|
      invariant ok <==> counter < |tokens|
      invariant ok ==> token == tokens[counter] && stream.Remaining() == tokens[counter + 1..]
      invariant counter > 0 ==> keyAsString == Converter.FromBin(tokens[0])
      invariant counter == 0 ==> keyAsString == [] && !skip
      invariant skip <==> (counter > 0 && !Glob.Matches(m, CString(keyAsString), CString(q.mask)))
                          || (counter > 1 && tokens[1] != Handlers.Decimal(q.select))
                          || (counter > 2 && tokens[2] != q.kind)
      decreases |tokens| - counter
    {
      if counter == 0 {
        keyAsString := Converter.ReadBits(token);
        var r := Glob.MatchInternal(CString(keyAsString), CString(q.mask), m);
        skip := !r;
      } else if counter == 1 {
        skip := Handlers.Decimal(q.select) != token;
      } else if counter == 2 {
        skip := token != q.kind;
      }
      counter := counter + 1;
      ok, token := stream.Extract();
    }
    key := if skip then None else Some(keyAsString);
  }

  /** The keys written by the server are selected by exactly their three parts. */
  lemma SelectedExactly(q: Query, m: Text, key: Text, select: nat, kind: Text)
    requires CaseMap(m) && key != [] && kind != [] && COLON !in kind
    ensures Selected(q, m, Handlers.DatabaseKey(key, select, kind)) ==
              if Glob.Matches(m, CString(key), CString(q.mask)) && select == q.select && kind == q.kind then Some(key) else None
  {
    Handlers.DatabaseKeyTokens(key, select, kind);
    Converter.FromBinToBin(key);
    Handlers.DecimalBack(select);
    Handlers.DecimalBack(q.select);
  }

  // ------------------------------------------------- the requested page

  function Matched(q: Query, m: Text, keys: seq<Text>): seq<Text>
    requires |m| == 256
  {
    if keys == [] then [] else
    var last := |keys| - 1;
    var key := Selected(q, m, keys[last]);
    Matched(q, m, keys[..last]) + (if key.Some? then [key.value] else [])
  }

  /** All matching keys when the limit is -1; otherwise `limit` of them from `offset` on. */
  function Page(q: Query, all: seq<Text>): seq<Text> {
    if q.limit == -1 then all else
    var from := if q.offset < 0 then 0 else if q.offset > |all| then |all| else q.offset;
    var to := if q.limit < 0 then from else if from + q.limit > |all| then |all| else from + q.limit;
    all[from..to]
  }

  function Flatten(replies: seq<Reply>): seq<Text> {
    if replies == [] then [] else Flatten(replies[..|replies| - 1]) + replies[|replies| - 1].items
  }

  /** The batches of one scan: numbered from 1, each partial one full. */
  ghost predicate Batches(partials: seq<Reply>) {
    forall i :: 0 <= i < |partials| ==>
      partials[i].partial && partials[i].subresult == i + 1 && |partials[i].items| == ITER_LIMIT
  }

  lemma PageGrows(q: Query, all: seq<Text>, key: Text)
    ensures Page(q, all + [key]) ==
              if q.limit == -1 || (|all| >= q.offset && |Page(q, all)| < q.limit) then Page(q, all) + [key] else Page(q, all)
  {
  }

  lemma FlattenAppend(replies: seq<Reply>, r: Reply)
    ensures Flatten(replies + [r]) == Flatten(replies) + r.items
  {
    assert (replies + [r])[..|replies|] == replies;
  }

  lemma {:induction false} MatchedPrefix(q: Query, m: Text, keys: seq<Text>, n: nat)
    requires |m| == 256 && n <= |keys|
    ensures Matched(q, m, keys[..n]) <= Matched(q, m, keys)
    decreases |keys| - n
  {
    if n == |keys| {
      assert keys[..n] == keys;
    } else {
      var last := |keys| - 1;
      assert keys[..last][..n] == keys[..n];
      MatchedPrefix(q, m, keys[..last], n);
    }
  }

  /** A full page does not change any more. */
  lemma PageFull(q: Query, all: seq<Text>, more: seq<Text>)
    requires all <= more && q.limit != -1 && |Page(q, all)| == q.limit
    ensures Page(q, more) == Page(q, all)
  {
  }

  lemma MatchedStep(q: Query, m: Text, keys: seq<Text>, i: nat)
    requires |m| == 256 && i < |keys|
    ensures var key := Selected(q, m, keys[i]);
            Matched(q, m, keys[..i + 1]) == if key.Some? then Matched(q, m, keys[..i]) + [key.value] else Matched(q, m, keys[..i])
  {
    assert keys[..i + 1][..i] == keys[..i];
  }

  lemma NextRemainder(counter: nat)
    requires counter > 0
    ensures if (counter - 1) % ITER_LIMIT + 1 == ITER_LIMIT then counter % ITER_LIMIT == 0
            else counter % ITER_LIMIT == (counter - 1) % ITER_LIMIT + 1
  {
  }

  lemma OneMoreBatch(partials: seq<Reply>, items: seq<Text>)
    requires Batches(partials) && |items| == ITER_LIMIT
    ensures Batches(partials + [Reply(items, true, |partials| + 1)])
  {
    var all := partials + [Reply(items, true, |partials| + 1)];
    forall i | 0 <= i < |all|
      ensures all[i].partial && all[i].subresult == i + 1 && |all[i].items| == ITER_LIMIT
    {
      assert i < |partials| ==> all[i] == partials[i];
    }
  }

  lemma NoneLeft(items: seq<Text>, none: seq<Text>)
    requires none == []
    ensures items + none == items
  {
  }

  /** The `counter`-th key taken joins the current batch; a full batch is emitted. */
  method Emit(partials: seq<Reply>, result: seq<Text>, key: Text, counter: nat)
    returns (partials': seq<Reply>, result': seq<Text>)
    requires Batches(partials) && counter > 0 && |result| == (counter - 1) % ITER_LIMIT
    ensures Batches(partials') && |result'| == counter % ITER_LIMIT
    ensures Flatten(partials') + result' == Flatten(partials) + result + [key]
    ensures if |result| + 1 == ITER_LIMIT then |partials'| == |partials| + 1 && result' == []
            else partials' == partials && result' == result + [key]
  {
    hide Batches, Flatten;
    NextRemainder(counter);
    Regroup(Flatten(partials), result, [key]);
    partials', result' := partials, result + [key];
    if counter % ITER_LIMIT == 0 {
      OneMoreBatch(partials, result');
      FlattenAppend(partials, Reply(result', true, |partials| + 1));
      NoneLeft(Flatten(partials) + result', []);
      partials' := partials + [Reply(result', true, |partials| + 1)];
      result' := [];
    }
  }

  /** Where a scan stands: the batches emitted, the batch being filled, and how many
      keys were selected and taken. */
  datatype Progress = Progress(partials: seq<Reply>, result: seq<Text>, total: nat, counter: nat)

  /** The keys of the page so far are in the batches. */
  ghost predicate Filled(page: seq<Text>, p: Progress) {
    && Batches(p.partials) && |p.result| == p.counter % ITER_LIMIT
    && p.counter == |page| && Flatten(p.partials) + p.result == page
  }

  /** The keys selected so far, cut to the page, are in the batches. */
  ghost predicate Scanned(q: Query, seen: seq<Text>, p: Progress) {
    p.total == |seen| && Filled(Page(q, seen), p)
  }

  method Join(p: Progress, key: Text, ghost page: seq<Text>) returns (p': Progress)
    requires Filled(page, p)
    ensures Filled(page + [key], p') && p'.total == p.total
  {
    var partials, result := Emit(p.partials, p.result, key, p.counter + 1);
    p' := Progress(partials, result, p.total, p.counter + 1);
  }

  /** One selected key: it joins the batch if it is on the page. */
  method Take(q: Query, p: Progress, key: Text, ghost seen: seq<Text>) returns (p': Progress)
    requires Scanned(q, seen, p)
    ensures Scanned(q, seen + [key], p')
    ensures p.counter <= p'.counter <= p.counter + 1
  {
    PageGrows(q, seen, key);
    p' := p;
    if (q.limit != -1 && p.total >= q.offset && p.counter < q.limit) || q.limit == -1 {
      p' := Join(p, key, Page(q, seen));
    }
    p' := p'.(total := p.total + 1);
  }

  /** A page that is full after some of the keys is the page of all of them. */
  lemma FullStays(q: Query, m: Text, keys: seq<Text>, n: nat)
    requires |m| == 256 && n <= |keys| && q.limit != -1 && |Page(q, Matched(q, m, keys[..n]))| == q.limit
    ensures Page(q, Matched(q, m, keys)) == Page(q, Matched(q, m, keys[..n]))
  {
    MatchedPrefix(q, m, keys, n);
    PageFull(q, Matched(q, m, keys[..n]), Matched(q, m, keys));
  }

  /** One key looked at: whether the page is now full, and where the scan stands. */
  method Look(q: Query, m: Text, keys: seq<Text>, i: nat, p: Progress) returns (p': Progress, full: bool)
    requires CaseMap(m) && i < |keys| && Scanned(q, Matched(q, m, keys[..i]), p)
    requires q.limit > 0 ==> p.counter < q.limit
    ensures Scanned(q, Matched(q, m, keys[..i + 1]), p')
    ensures full ==> Page(q, Matched(q, m, keys[..i + 1])) == Page(q, Matched(q, m, keys))
    ensures !full && q.limit > 0 ==> p'.counter < q.limit
  {
    var key := Filter(q, m, keys[i]);
    MatchedStep(q, m, keys, i);
    if key.None? {
      return p, false;
    }
    p' := Take(q, p, key.value, Matched(q, m, keys[..i]));
    full := q.limit != -1 && p'.counter == q.limit && p'.counter > p.counter;
    if full {
      FullStays(q, m, keys, i + 1);
    }
  }

  /** The loop of the scan: it ends when the page is full, after the last key, or at
      `horizon`, having looked at `n` keys. */
  method Scan(q: Query, m: Text, keys: seq<Text>, horizon: nat) returns (p: Progress, finished: bool, ghost n: nat)
    requires CaseMap(m)
    ensures n <= |keys| && Scanned(q, Matched(q, m, keys[..n]), p)
    ensures finished ==> Page(q, Matched(q, m, keys[..n])) == Page(q, Matched(q, m, keys))
    ensures !finished ==> n == horizon < |keys|
  {
    p := Progress([], [], 0, 0);
    var i := 0;
    assert keys[..0] == [];
    while i < |keys|
      invariant i <= |keys| && i <= horizon && Scanned(q, Matched(q, m, keys[..i]), p)
      invariant q.limit > 0 ==> p.counter < q.limit
    {
      if i >= horizon {
        return p, false, i;
      }
      var full;
      p, full := Look(q, m, keys, i, p);
      i := i + 1;
      if full {
        return p, true, i;
      }
    }
    assert keys[..i] == keys;
    return p, true, i;
  }

  /** What a finished scan has answered: full batches numbered from 1, and a final reply,
      which together are the requested page of the matching keys. */
  ghost predicate Answers(q: Query, m: Text, keys: seq<Text>, partials: seq<Reply>, final: Reply)
    requires |m| == 256
  {
    && Batches(partials) && Flatten(partials) + final.items == Page(q, Matched(q, m, keys))
    && !final.partial && final.subresult == |partials| + 1 && |final.items| < ITER_LIMIT
  }

  /** The scan and its final reply. `horizon` is the number of keys it may look at before
      the check at the head of the loop ends it (the client quits, the database closes);
      then no final reply is produced. */
  method Run(q: Query, m: Text, keys: seq<Text>, horizon: nat) returns (partials: seq<Reply>, final: Option<Reply>, counter: nat)
    requires CaseMap(m)
    ensures Batches(partials)
    ensures final.Some? ==>
              Answers(q, m, keys, partials, final.value) && counter == |Page(q, Matched(q, m, keys))|
    ensures horizon >= |keys| ==> final.Some?
    ensures final.None? ==> horizon < |keys| && Flatten(partials) <= Page(q, Matched(q, m, keys[..horizon]))
  {
    var p, finished, n := Scan(q, m, keys, horizon);
    partials, counter := p.partials, p.counter;
    final := if finished then Some(Reply(p.result, false, |p.partials| + 1)) else None;
  }

  // ------------------------------------------------- what the client is sent

  datatype Message = StartList | EndList | ItemList(item: Text) | Ruler | Title | Empty

  const QUOTE: Byte := 34

  function Shown(quoted: bool, item: Text): Text {
    if quoted then [QUOTE] + item + [QUOTE] else item
  }

  function Items(quoted: bool, items: seq<Text>): seq<Message> {
    if items == [] then [] else
    Items(quoted, items[..|items| - 1]) + [ItemList(Shown(quoted, items[|items| - 1]))]
  }

  function Opening(emerald: bool): seq<Message> {
    if emerald then [Ruler, Title, Ruler] else [StartList]
  }

  function Closing(emerald: bool): seq<Message> {
    if emerald then [Ruler] else [EndList]
  }

  function NothingFound(emerald: bool): seq<Message> {
    if emerald then [Empty] else [StartList, EndList]
  }

  function Flushed(emerald: bool, quoted: bool, r: Reply): seq<Message> {
    if r.subresult == 1 && r.items == [] then NothingFound(emerald)
    else (if r.subresult == 1 then Opening(emerald) else []) + Items(quoted, r.items)
         + (if r.partial then [] else Closing(emerald))
  }

  /** The item messages appended to what has been sent so far. */
  method SendItems(quoted: bool, items: seq<Text>, head: seq<Message>) returns (sent: seq<Message>)
    ensures sent == head + Items(quoted, items)
  {
    sent := head;
    for i := 0 to |items|
      invariant sent == head + Items(quoted, items[..i])
    {
      ItemsStep(quoted, items, i);
      sent := sent + [ItemList(Shown(quoted, items[i]))];
    }
    assert items[..|items|] == items;
  }

  /** VectorFlush for one reply. An emerald client gets a table, any other client the
      bare START and END markers. */
  method VectorFlush(emerald: bool, quoted: bool, r: Reply) returns (sent: seq<Message>)
    ensures sent == Flushed(emerald, quoted, r)
  {
    sent := [];
    if r.subresult == 1 {
      if !emerald {
        sent := [StartList];
      }
      if r.items == [] {
        sent := sent + (if !emerald then [EndList] else [Empty]);
        return;
      }
      if emerald {
        sent := [Ruler, Title, Ruler];
      }
    }
    sent := SendItems(quoted, r.items, sent);
    if !r.partial {
      sent := sent + Closing(emerald);
    }
  }

  lemma ItemsStep(quoted: bool, items: seq<Text>, i: nat)
    requires i < |items|
    ensures Items(quoted, items[..i + 1]) == Items(quoted, items[..i]) + [ItemList(Shown(quoted, items[i]))]
  {
    assert items[..i + 1][..i] == items[..i];
  }

  function FlushedAll(emerald: bool, quoted: bool, replies: seq<Reply>): seq<Message> {
    if replies == [] then [] else
    FlushedAll(emerald, quoted, replies[..|replies| - 1]) + Flushed(emerald, quoted, replies[|replies| - 1])
  }

  lemma {:induction false} ItemsConcat(quoted: bool, a: seq<Text>, b: seq<Text>)
    ensures Items(quoted, a + b) == Items(quoted, a) + Items(quoted, b)
  {
    if b == [] {
      assert a + b == a;
    } else {
      var last := |b| - 1;
      assert (a + b)[..|a + b| - 1] == a + b[..last];
      ItemsConcat(quoted, a, b[..last]);
    }
  }

  /** The partial replies alone are an opening and their items. */
  lemma {:induction false} PartialsFramed(emerald: bool, quoted: bool, partials: seq<Reply>)
    requires Batches(partials)
    ensures FlushedAll(emerald, quoted, partials) ==
              if partials == [] then [] else Opening(emerald) + Items(quoted, Flatten(partials))
  {
    if |partials| > 0 {
      var last := |partials| - 1;
      PartialsFramed(emerald, quoted, partials[..last]);
      if last == 0 {
        FirstFramed(emerald, quoted, partials);
      } else {
        NextFramed(emerald, quoted, partials);
      }
    }
  }

  lemma FirstFramed(emerald: bool, quoted: bool, partials: seq<Reply>)
    requires Batches(partials) && |partials| == 1
    ensures FlushedAll(emerald, quoted, partials) == Opening(emerald) + Items(quoted, Flatten(partials))
  {
    var r := partials[0];
    assert partials[..0] == [];
    assert [] + r.items == r.items;
    var shown := Items(quoted, r.items);
    assert Flushed(emerald, quoted, r) == Opening(emerald) + shown + [];
    assert [] + (Opening(emerald) + shown + []) == Opening(emerald) + shown;
  }

  lemma NextFramed(emerald: bool, quoted: bool, partials: seq<Reply>)
    requires Batches(partials) && |partials| > 1
    requires var before := partials[..|partials| - 1];
             FlushedAll(emerald, quoted, before) == Opening(emerald) + Items(quoted, Flatten(before))
    ensures FlushedAll(emerald, quoted, partials) == Opening(emerald) + Items(quoted, Flatten(partials))
  {
    var last := |partials| - 1;
    var before, r := partials[..last], partials[last];
    ItemsConcat(quoted, Flatten(before), r.items);
    Regroup(Opening(emerald), Items(quoted, Flatten(before)), Items(quoted, r.items));
    LaterFlushed(emerald, quoted, r);
  }

  lemma LaterFlushed(emerald: bool, quoted: bool, r: Reply)
    requires r.partial && r.subresult != 1
    ensures Flushed(emerald, quoted, r) == Items(quoted, r.items)
  {
    var shown := Items(quoted, r.items);
    assert [] + shown + [] == shown;
  }

  /** The replies of one finished scan, flushed in order, are one framed list of the
      requested page: START, the items in order, END; an empty page has its own form. */
  lemma OneFramedList(emerald: bool, quoted: bool, partials: seq<Reply>, final: Reply)
    requires Batches(partials) && !final.partial && final.subresult == |partials| + 1
    ensures var page := Flatten(partials) + final.items;
            FlushedAll(emerald, quoted, partials + [final]) ==
              if page == [] then NothingFound(emerald)
              else Opening(emerald) + Items(quoted, page) + Closing(emerald)
  {
    var all := partials + [final];
    assert all[..|partials|] == partials && all[|all| - 1] == final;
    PartialsFramed(emerald, quoted, partials);
    if partials == [] {
      assert Flatten(partials) + final.items == final.items;
      assert [] + Flushed(emerald, quoted, final) == Flushed(emerald, quoted, final);
    } else {
      LastFramed(emerald, quoted, partials, final);
    }
  }

  lemma LastFramed(emerald: bool, quoted: bool, partials: seq<Reply>, final: Reply)
    requires Batches(partials) && partials != [] && !final.partial && final.subresult != 1
    ensures Flatten(partials) != []
    ensures Opening(emerald) + Items(quoted, Flatten(partials)) + Flushed(emerald, quoted, final)
         == Opening(emerald) + Items(quoted, Flatten(partials) + final.items) + Closing(emerald)
  {
    var open, shown, tail := Opening(emerald), Items(quoted, Flatten(partials)), Items(quoted, final.items);
    var close := Closing(emerald);
    ItemsConcat(quoted, Flatten(partials), final.items);
    assert |Flatten(partials)| >= |partials[|partials| - 1].items|;
    assert Flushed(emerald, quoted, final) == [] + tail + close;
    assert [] + tail == tail;
    Regroup(open + shown, tail, close);
    Regroup(open, shown, tail);
  }

  /** What the client of a finished scan is sent: the requested page of the matching keys,
      in order, in one frame. */
  lemma ScanFramed(emerald: bool, quoted: bool, q: Query, m: Text, keys: seq<Text>, partials: seq<Reply>, final: Reply)
    requires |m| == 256 && Answers(q, m, keys, partials, final)
    ensures var page := Page(q, Matched(q, m, keys));
            FlushedAll(emerald, quoted, partials + [final]) ==
              if page == [] then NothingFound(emerald)
              else Opening(emerald) + Items(quoted, page) + Closing(emerald)
  {
    OneFramedList(emerald, quoted, partials, final);
  }

  /** The item that a message shows. */
  function Unshown(quoted: bool, shown: Text): Text {
    if quoted && |shown| >= 2 then shown[1..|shown| - 1] else shown
  }

  /** Every item is sent as it is, or between quotes, in its place. */
  lemma {:induction false} ItemsShown(quoted: bool, items: seq<Text>)
    ensures |Items(quoted, items)| == |items|
    ensures forall i :: 0 <= i < |items| ==>
              var m := Items(quoted, items)[i];
              && m.ItemList? && Unshown(quoted, m.item) == items[i]
              && (quoted ==> |m.item| == |items[i]| + 2 && m.item[0] == QUOTE && m.item[|m.item| - 1] == QUOTE)
  {
    if items != [] {
      ItemsShown(quoted, items[..|items| - 1]);
    }
  }

  /** A plain client is sent exactly START, one message for each item of the page, and END,
      for the empty page as for any other. */
  lemma PlainFrame(quoted: bool, q: Query, m: Text, keys: seq<Text>, partials: seq<Reply>, final: Reply)
    requires |m| == 256 && Answers(q, m, keys, partials, final)
    ensures FlushedAll(false, quoted, partials + [final])
         == [StartList] + Items(quoted, Page(q, Matched(q, m, keys))) + [EndList]
  {
    ScanFramed(false, quoted, q, m, keys, partials, final);
  }

  /** A client with tables is sent one message when there is nothing to show, and otherwise
      one table: its head between two rulers, the rows, and a ruler. */
  lemma TableFrame(quoted: bool, q: Query, m: Text, keys: seq<Text>, partials: seq<Reply>, final: Reply)
    requires |m| == 256 && Answers(q, m, keys, partials, final)
    ensures var page, sent := Page(q, Matched(q, m, keys)), FlushedAll(true, quoted, partials + [final]);
            if page == [] then sent == [Empty] else sent == [Ruler, Title, Ruler] + Items(quoted, page) + [Ruler]
  {
    ScanFramed(true, quoted, q, m, keys, partials, final);
  }
}
