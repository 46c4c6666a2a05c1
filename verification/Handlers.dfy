/**
  The storage form of lists, maps and composite keys: elements as binary digits,
  joined by separators that are not digits.
 */
module Handlers {
  import opened Bytes
  import opened Sequences
  import Converter
  import NodeStream

  function Bins(items: seq<Text>): seq<Text> {
    if items == [] then [] else [Converter.ToBin(items[0])] + Bins(items[1..])
  }

  /** The items read from tokens; a token that reads as the empty string is dropped. */
  function ReadAll(tokens: seq<Text>): seq<Text> {
    if tokens == [] then [] else
    var item := Converter.FromBin(tokens[0]);
    (if item == [] then [] else [item]) + ReadAll(tokens[1..])
  }

  lemma BinHas(item: Text, c: Byte)
    requires c in Converter.ToBin(item)
    ensures Converter.IsDigit(c)
  {
  }

  // ------------------------------------------------- lists

  function ShowList(items: seq<Text>): Text {
    NodeStream.Terminated(Bins(items), COLON)
  }

  function ParseList(load: Text): seq<Text> {
    ReadAll(NodeStream.Rest(load, COLON, false, 0))
  }

  class ListHandler {
    var items: seq<Text>

    constructor ()
      ensures items == []
    {
      items := [];
    }

    /** Empty strings are refused. */
    method Add(key: Text)
      modifies this
      ensures items == old(items) + if key == [] then [] else [key]
    {
      if key != [] {
        items := items + [key];
      }
    }

    static method Create(load: Text) returns (h: ListHandler)
      ensures fresh(h) && h.items == ParseList(load)
    {
      h := new ListHandler();
      var stream := new NodeStream.Stream(load, COLON, false);
      ghost var left := stream.Remaining();
      var ok, mask := stream.Extract();
      while ok
        invariant fresh(h) && fresh(stream) && (ok <==> left != [])
        invariant ParseList(load) == h.items + ReadAll(left)
        invariant ok ==> mask == left[0] && stream.Remaining() == left[1..]
        decreases |left|
      {
        ghost var before, rest := h.items, left[1..];
        var item := Converter.ReadBits(mask);
        h.Add(item);
        ReadOne(before, left);
        ok, mask := stream.Extract();
        left := rest;
      }
    }

    method AsString() returns (final: Text)
      ensures final == ShowList(items)
    {
      final := [];
      assert items[0..] == items;
      for i := 0 to |items|
        invariant final + ShowList(items[i..]) == ShowList(items)
      {
        assert items[i..][1..] == items[i + 1..];
        assert Bins(items[i..])[1..] == Bins(items[i + 1..]);
        var bits := Converter.WriteBits(items[i]);
        ghost var rest := ShowList(items[i + 1..]);
        assert ShowList(items[i..]) == bits + [COLON] + rest;
        assert final + (bits + [COLON] + rest) == (final + (bits + [COLON])) + rest;
        final := final + (bits + [COLON]);
      }
      assert items[|items|..] == [];
    }
  }

  lemma ReadOne(before: seq<Text>, tokens: seq<Text>)
    requires tokens != []
    ensures var item := Converter.FromBin(tokens[0]);
            before + ReadAll(tokens) == before + (if item == [] then [] else [item]) + ReadAll(tokens[1..])
  {
    var item := Converter.FromBin(tokens[0]);
    Regroup(before, if item == [] then [] else [item], ReadAll(tokens[1..]));
  }

  lemma {:induction false} NoColonInBins(items: seq<Text>)
    ensures forall t :: t in Bins(items) ==> COLON !in t
  {
    if items != [] {
      NoColonInBins(items[1..]);
      forall t | t in Bins(items) ensures COLON !in t {
        if t == Converter.ToBin(items[0]) && COLON in t {
          BinHas(items[0], COLON);
        }
      }
    }
  }

  lemma {:induction false} ReadBins(items: seq<Text>)
    ensures ReadAll(NodeStream.NonEmpty(Bins(items))) == NodeStream.NonEmpty(items)
  {
    if items != [] {
      ReadBins(items[1..]);
      Converter.FromBinToBin(items[0]);
      var first, rest := Converter.ToBin(items[0]), NodeStream.NonEmpty(Bins(items[1..]));
      assert Bins(items)[1..] == Bins(items[1..]);
      if first != [] {
        assert NodeStream.NonEmpty(Bins(items)) == [first] + rest;
        assert ([first] + rest)[1..] == rest;
      } else {
        assert NodeStream.NonEmpty(Bins(items)) == rest;
      }
    }
  }

  /** A stored list reads back as the list without its empty strings. */
  lemma ListRoundTrip(items: seq<Text>)
    ensures ParseList(ShowList(items)) == NodeStream.NonEmpty(items)
  {
    NoColonInBins(items);
    NodeStream.ReadTerminated(Bins(items), COLON);
    ReadBins(items);
  }

  // ------------------------------------------------- maps

  function Entry(key: Text, value: Text): Text {
    Converter.ToBin(key) + [SLASH] + Converter.ToBin(value)
  }

  function Entries(m: map<Text, Text>, order: seq<Text>): seq<Text>
    requires forall k :: k in order ==> k in m
  {
    if order == [] then [] else [Entry(order[0], m[order[0]])] + Entries(m, order[1..])
  }

  /** `order` is the order in which the map is walked. */
  function ShowMap(m: map<Text, Text>, order: seq<Text>): Text
    requires forall k :: k in order ==> k in m
  {
    NodeStream.Terminated(Entries(m, order), COLON)
  }

  /** The key part of a token: what stands before the first slash, or all of it. */
  function KeyPart(mask: Text): Text {
    mask[..NodeStream.Find(mask, SLASH, 0)]
  }

  /** The value part: what stands behind the first slash; without one, the whole token. */
  function ValuePart(mask: Text): Text {
    var found := NodeStream.Find(mask, SLASH, 0);
    if found < |mask| then mask[found + 1..] else mask
  }

  function AddEntry(m: map<Text, Text>, key: Text, value: Text): map<Text, Text> {
    if key == [] then m else m[key := value]
  }

  function ReadEntries(m: map<Text, Text>, tokens: seq<Text>): map<Text, Text>
    decreases |tokens|
  {
    if tokens == [] then m
    else ReadEntries(AddEntry(m, Converter.FromBin(KeyPart(tokens[0])), Converter.FromBin(ValuePart(tokens[0]))), tokens[1..])
  }

  function ParseMap(load: Text): map<Text, Text> {
    ReadEntries(map[], NodeStream.Rest(load, COLON, false, 0))
  }

  class MapHandler {
    var items: map<Text, Text>

    constructor ()
      ensures items == map[]
    {
      items := map[];
    }

    method Add(key: Text, value: Text)
      modifies this
      ensures items == AddEntry(old(items), key, value)
    {
      if key == [] {
        return;
      }
      items := items - {key};
      items := items[key := value];
    }

    static method Create(load: Text) returns (h: MapHandler)
      ensures fresh(h) && h.items == ParseMap(load)
    {
      h := new MapHandler();
      var stream := new NodeStream.Stream(load, COLON, false);
      ghost var left := stream.Remaining();
      var ok, mask := stream.Extract();
      while ok
        invariant fresh(h) && fresh(stream) && (ok <==> left != [])
        invariant ParseMap(load) == ReadEntries(h.items, left)
        invariant ok ==> mask == left[0] && stream.Remaining() == left[1..]
        decreases |left|
      {
        ghost var rest := left[1..];
        var key := Converter.ReadBits(KeyPart(mask));
        var value := Converter.ReadBits(ValuePart(mask));
        h.Add(key, value);
        ok, mask := stream.Extract();
        left := rest;
      }
    }

    method AsString(order: seq<Text>) returns (final: Text)
      requires forall k :: k in order <==> k in items
      ensures final == ShowMap(items, order)
    {
      hide ShowMap;
      final := [];
      assert order[0..] == order;
      for i := 0 to |order|
        invariant forall k :: k in order[i..] ==> k in items
        invariant final + ShowMap(items, order[i..]) == ShowMap(items, order)
      {
        assert order[i..] == [order[i]] + order[i + 1..];
        ShowStep(items, order[i], order[i + 1..]);
        var key := Converter.WriteBits(order[i]);
        var value := Converter.WriteBits(items[order[i]]);
        Regroup(final, key + [SLASH] + value + [COLON], ShowMap(items, order[i + 1..]));
        final := final + (key + [SLASH] + value + [COLON]);
      }
      ShowNone(items, order[|order|..]);
    }
  }

  lemma ShowStep(m: map<Text, Text>, key: Text, rest: seq<Text>)
    requires key in m && forall k :: k in rest ==> k in m
    ensures ShowMap(m, [key] + rest) == Entry(key, m[key]) + [COLON] + ShowMap(m, rest)
  {
    assert ([key] + rest)[1..] == rest;
    assert Entries(m, [key] + rest)[1..] == Entries(m, rest);
  }

  lemma ShowNone(m: map<Text, Text>, order: seq<Text>)
    requires order == []
    ensures ShowMap(m, order) == []
  {
  }

  lemma EntryParts(key: Text, value: Text)
    ensures KeyPart(Entry(key, value)) == Converter.ToBin(key)
    ensures ValuePart(Entry(key, value)) == Converter.ToBin(value)
    ensures COLON !in Entry(key, value) && Entry(key, value) != []
  {
    var k, v := Converter.ToBin(key), Converter.ToBin(value);
    if SLASH in k {
      BinHas(key, SLASH);
    }
    NodeStream.FindFirst(k, SLASH, v, 0);
    assert Entry(key, value) == k + [SLASH] + v;
  }

  lemma {:induction false} EntriesClean(m: map<Text, Text>, order: seq<Text>)
    requires forall k :: k in order ==> k in m
    ensures forall t :: t in Entries(m, order) ==> COLON !in t
    ensures NodeStream.NonEmpty(Entries(m, order)) == Entries(m, order)
  {
    if order != [] {
      EntryParts(order[0], m[order[0]]);
      EntriesClean(m, order[1..]);
      assert Entries(m, order)[1..] == Entries(m, order[1..]);
    }
  }

  /** The part of a map that belongs to some keys, without the empty one. */
  function Chosen(m: map<Text, Text>, order: seq<Text>): map<Text, Text> {
    map k | k in m && k in order && k != [] :: m[k]
  }

  lemma ChosenStep(into: map<Text, Text>, m: map<Text, Text>, order: seq<Text>)
    requires order != [] && order[0] in m
    ensures AddEntry(into, order[0], m[order[0]]) + Chosen(m, order[1..]) == into + Chosen(m, order)
  {
    assert forall k :: k in order <==> k == order[0] || k in order[1..];
  }

  lemma FirstEntry(into: map<Text, Text>, m: map<Text, Text>, order: seq<Text>)
    requires order != [] && forall k :: k in order ==> k in m
    ensures ReadEntries(into, Entries(m, order)) ==
              ReadEntries(AddEntry(into, order[0], m[order[0]]), Entries(m, order[1..]))
  {
    var key, value := order[0], m[order[0]];
    EntryParts(key, value);
    Converter.FromBinToBin(key);
    Converter.FromBinToBin(value);
    assert Entries(m, order)[1..] == Entries(m, order[1..]);
  }

  /** Reading the entries of some keys puts exactly those, if not empty, into the map. */
  lemma {:induction false} ReadShownEntries(into: map<Text, Text>, m: map<Text, Text>, order: seq<Text>)
    requires forall k :: k in order ==> k in m
    ensures ReadEntries(into, Entries(m, order)) == into + Chosen(m, order)
    decreases |order|
  {
    if order == [] {
      assert Chosen(m, order) == map[];
    } else {
      FirstEntry(into, m, order);
      ReadShownEntries(AddEntry(into, order[0], m[order[0]]), m, order[1..]);
      ChosenStep(into, m, order);
    }
  }

  /** A stored map reads back as the map without its empty key; so it reads back
      unchanged exactly if it has no empty key. Empty values survive. */
  lemma MapRoundTrip(m: map<Text, Text>, order: seq<Text>)
    requires forall k :: k in order <==> k in m
    ensures ParseMap(ShowMap(m, order)) == map k | k in m && k != [] :: m[k]
    ensures ParseMap(ShowMap(m, order)) == m <==> [] !in m
  {
    ShownMap(m, order);
    WithoutEmptyKey(m);
  }

  lemma ShownMap(m: map<Text, Text>, order: seq<Text>)
    requires forall k :: k in order <==> k in m
    ensures ParseMap(ShowMap(m, order)) == map k | k in m && k != [] :: m[k]
  {
    EntriesClean(m, order);
    NodeStream.ReadTerminated(Entries(m, order), COLON);
    ReadShownEntries(map[], m, order);
  }

  lemma WithoutEmptyKey(m: map<Text, Text>)
    ensures (map k | k in m && k != [] :: m[k]) == m <==> [] !in m
  {
    var n := map k | k in m && k != [] :: m[k];
    assert [] !in n;
    assert [] !in m ==> n.Keys == m.Keys;
  }

  // ------------------------------------------------- composite keys

  function Decimal(n: nat): (r: Text)
    ensures r != [] && forall i :: 0 <= i < |r| ==> 48 <= r[i] <= 57
  {
    if n < 10 then [48 + n] else Decimal(n / 10) + [48 + n % 10]
  }

  function Undecimal(s: Text): int {
    if s == [] then 0 else 10 * Undecimal(s[..|s| - 1]) + (s[|s| - 1] as int - 48)
  }

  lemma {:induction false} DecimalBack(n: nat)
    ensures Undecimal(Decimal(n)) == n
  {
    if n >= 10 {
      DecimalBack(n / 10);
      assert Decimal(n)[..|Decimal(n)| - 1] == Decimal(n / 10);
    } else {
      assert [48 + n as Byte][..0] == [];
    }
  }

  /** The database key of a user's key: its digits, the select number and the type. */
  function DatabaseKey(key: Text, select: nat, kind: Text): Text {
    Converter.ToBin(key) + [COLON] + (Decimal(select) + [COLON] + kind)
  }

  /** The tokenizer finds the three parts again exactly if the key is not empty; an
      empty key leaves only the other two, so they move to the front. */
  lemma DatabaseKeyTokens(key: Text, select: nat, kind: Text)
    requires COLON !in kind && kind != []
    ensures NodeStream.Rest(DatabaseKey(key, select, kind), COLON, false, 0) ==
              (if key == [] then [] else [Converter.ToBin(key)]) + [Decimal(select), kind]
  {
    var bits, number := Converter.ToBin(key), Decimal(select);
    if COLON in bits {
      BinHas(key, COLON);
    }
    NodeStream.FirstToken(bits, COLON, number + [COLON] + kind);
    NodeStream.FirstToken(number, COLON, kind);
    NodeStream.LastToken(kind, COLON);
    assert DatabaseKey(key, select, kind) == bits + [COLON] + (number + [COLON] + kind);
  }

  /** Different keys, selects or types have different database keys. */
  lemma DatabaseKeyInjective(key: Text, select: nat, kind: Text, key': Text, select': nat, kind': Text)
    requires COLON !in kind && kind != [] && COLON !in kind' && kind' != []
    requires DatabaseKey(key, select, kind) == DatabaseKey(key', select', kind')
    ensures key == key' && select == select' && kind == kind'
  {
    var tokens := NodeStream.Rest(DatabaseKey(key, select, kind), COLON, false, 0);
    DatabaseKeyTokens(key, select, kind);
    DatabaseKeyTokens(key', select', kind');
    assert |tokens| == (if key == [] then 0 else 1) + 2 == (if key' == [] then 0 else 1) + 2;
    assert tokens[|tokens| - 2] == Decimal(select) && tokens[|tokens| - 2] == Decimal(select');
    assert tokens[|tokens| - 1] == kind && tokens[|tokens| - 1] == kind';
    DecimalBack(select);
    DecimalBack(select');
    Converter.FromBinToBin(key);
    Converter.FromBinToBin(key');
    assert key != [] ==> tokens[0] == Converter.ToBin(key) && tokens[0] == Converter.ToBin(key');
  }
}
