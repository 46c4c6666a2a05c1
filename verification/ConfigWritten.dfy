/**
  A configuration written with Escape reads back as it was: every tag with its name,
  its keys and its values, in order.
 */
module ConfigWritten {
  import opened Wrappers
  import opened Bytes
  import opened Sequences
  import opened ConfigText
  import opened Config
  import FlatMap

  predicate Word(s: Text) {
    s != [] && forall i :: 0 <= i < |s| ==> WordChar(s[i])
  }

  /** A tag without effect of its own, with the keys in the order of the container. */
  ghost predicate Writable(o: KeyOrder, tag: Tag) {
    && Word(tag.name) && KindOf(tag.name) == Plain && FlatMap.Strict(o, tag.items)
    && forall i {:trigger tag.items[i]} :: 0 <= i < |tag.items| ==> Word(tag.items[i].0) && CR !in tag.items[i].1
  }

  function QuotedText(v: Text): Text {
    [QUOTE] + (Escaped(v, true, |v|) + [QUOTE])
  }

  function ItemText(k: Text, v: Text): Text {
    [32] + (k + ([EQUALS] + QuotedText(v)))
  }

  function ItemTexts(items: Items): (r: seq<Text>)
    ensures |r| == |items|
  {
    seq(|items|, i requires 0 <= i < |items| => ItemText(items[i].0, items[i].1))
  }

  function KeysText(items: Items): Text {
    Joined(ItemTexts(items), |items|)
  }

  function TagWritten(tag: Tag): Text {
    [LT] + (tag.name + (KeysText(tag.items) + [GT])) + [LF]
  }

  function TagTexts(tags: seq<Tag>): (r: seq<Text>)
    ensures |r| == |tags|
  {
    seq(|tags|, i requires 0 <= i < |tags| => TagWritten(tags[i]))
  }

  /** A file with one tag after the other. */
  function Written(tags: seq<Tag>): Text {
    Joined(TagTexts(tags), |tags|)
  }

  // ------------------------------------------------- words

  lemma {:induction false} WordEnds(t: Text, p: nat, w: Text, d: Byte)
    requires Has(t, p, w + [d]) && !WordChar(d) && forall i :: 0 <= i < |w| ==> WordChar(w[i])
    ensures WordEnd(t, p) == p + |w|
    decreases |w|
  {
    HasAt(t, p, w + [d], 0);
    if w != [] {
      assert w + [d] == [w[0]] + (w[1..] + [d]);
      HasParts(t, p, [w[0]], w[1..] + [d]);
      WordEnds(t, p + 1, w[1..], d);
    }
  }

  /** A word is read up to the byte behind it, with or without a blank before it. */
  lemma WordRead(t: Text, p: nat, w: Text, d: Byte)
    requires Has(t, p, w + [d]) && !WordChar(d) && Word(w)
    ensures IterNext(t, p) == Ok((w, p + |w|)) && t[p + |w|] == d
    ensures p > 0 && t[p - 1] == 32 ==> IterNext(t, p - 1) == Ok((w, p + |w|))
  {
    HasParts(t, p, w, [d]);
    HasAt(t, p, w, 0);
    HasAt(t, p + |w|, [d], 0);
    WordEnds(t, p, w, d);
  }

  // ------------------------------------------------- one key

  lemma ValueRead(c: Context, t: Text, p: nat, v: Text)
    requires Predefined(c) && !c.compat && Has(t, p, Escaped(v, true, |v|) + [QUOTE]) && CR !in v
    ensures ValueAt(c, t, p, []) == Ok((v, p + |Escaped(v, true, |v|)| + 1))
  {
    EscapeReadBack(c, t, p, v, []);
    WithoutCrSame(v, |v|);
    assert v[..|v|] == v && [] + v == v;
  }

  lemma QuotedRead(c: Context, t: Text, p: nat, v: Text)
    requires Predefined(c) && !c.compat && Has(t, p, QuotedText(v)) && CR !in v
    ensures QuotedAt(c, t, p) == Ok((v, p + |QuotedText(v)|))
  {
    HasParts(t, p, [QUOTE], Escaped(v, true, |v|) + [QUOTE]);
    HasAt(t, p, [QUOTE], 0);
    ValueRead(c, t, p + 1, v);
  }

  lemma KeyOfParts(c: Context, t: Text, p: nat, k: Text, q: nat, v: Text, next: nat)
    requires p <= |t| && IterNext(t, p) == Ok((k, q)) && t[q] == EQUALS
    requires QuotedAt(c, t, q + 1) == Ok((v, next))
    ensures KeyValue(c, t, p) == Ok(Item(k, v, next))
  {
  }

  /** The parts of the text of one key. */
  lemma ItemParts(t: Text, p: nat, k: Text, v: Text)
    requires Has(t, p, ItemText(k, v)) && Word(k)
    ensures var q := p + 1 + |k|;
            IterNext(t, p) == Ok((k, q)) && t[q] == EQUALS && Has(t, q + 1, QuotedText(v))
  {
    HasParts(t, p, [32], k + ([EQUALS] + QuotedText(v)));
    HasAt(t, p, [32], 0);
    Regroup(k, [EQUALS], QuotedText(v));
    HasParts(t, p + 1, k + [EQUALS], QuotedText(v));
    WordRead(t, p + 1, k, EQUALS);
  }

  lemma ItemRead(c: Context, t: Text, p: nat, k: Text, v: Text)
    requires Predefined(c) && !c.compat && Has(t, p, ItemText(k, v)) && Word(k) && CR !in v
    ensures KeyValue(c, t, p) == Ok(Item(k, v, p + |ItemText(k, v)|))
  {
    ItemParts(t, p, k, v);
    var q := p + 1 + |k|;
    QuotedRead(c, t, q + 1, v);
    KeyOfParts(c, t, p, k, q, v, q + 1 + |QuotedText(v)|);
  }

  /** A key that comes after all keys so far goes to the end of the container. */
  lemma KeyAppended(o: KeyOrder, items: Items, n: nat)
    requires FlatMap.Strict(o, items) && n < |items| && forall e :: o.key(e) == e.0
    ensures AddKey(o, items[..n], items[n].0, items[n].1) == Some(items[..n + 1])
  {
    var s, k := items[..n], items[n].0;
    forall j | 0 <= j < n ensures o.lt(o.key(s[j]), k) {
      assert s[j] == items[j] && o.lt(o.key(items[j]), o.key(items[n]));
    }
    FlatMap.LowerUnique(o, s, k, n);
    assert s[..n] == s && s[n..] == [] && (k, items[n].1) == items[n];
    assert items[..n + 1] == s + [items[n]] + [];
  }

  // ------------------------------------------------- all keys of a tag

  /** A context in which the keys of the tag can be added one by one in their order. */
  ghost predicate Reading(c: Context, tag: Tag) {
    && Predefined(c) && !c.compat
    && forall i {:trigger tag.items[i]} :: 0 <= i < |tag.items| ==>
         && Word(tag.items[i].0) && CR !in tag.items[i].1
         && c.add(tag.items[..i], tag.items[i].0, tag.items[i].1) == Some(tag.items[..i + 1])
  }

  /** Key `i` is read at `at[i]`, and may join the keys before it. */
  ghost predicate ReadHere(c: Context, t: Text, items: Items, at: seq<nat>, i: nat) {
    && i < |items| && |at| == |items| + 1 && at[i] <= |t|
    && KeyValue(c, t, at[i]) == Ok(Item(items[i].0, items[i].1, at[i + 1]))
    && c.add(items[..i], items[i].0, items[i].1) == Some(items[..i + 1])
  }

  lemma KeyRead(c: Context, t: Text, tag: Tag, at: seq<nat>, i: nat)
    requires Reading(c, tag) && Laid(t, ItemTexts(tag.items), at) && i < |tag.items|
    ensures ReadHere(c, t, tag.items, at, i)
  {
    var e := tag.items[i];
    assert ItemTexts(tag.items)[i] == ItemText(e.0, e.1);
    ItemRead(c, t, at[i], e.0, e.1);
  }

  lemma KeysStep(c: Context, t: Text, p: nat, items: Items, k: Text, v: Text, next: nat, all: Items)
    requires p <= |t| && KeyValue(c, t, p) == Ok(Item(k, v, next)) && c.add(items, k, v) == Some(all)
    ensures KeyValues(c, t, p, items) == KeyValues(c, t, next, all)
  {
  }

  /** Reading key after key, `at[k]` being the position of key `k`. */
  lemma {:induction false} KeysAlong(c: Context, t: Text, items: Items, at: seq<nat>, k: nat)
    requires |at| == |items| + 1 && at[0] <= |t| && k <= |items|
    requires forall i :: 0 <= i < |items| ==> ReadHere(c, t, items, at, i)
    ensures at[k] <= |t| && KeyValues(c, t, at[0], []) == KeyValues(c, t, at[k], items[..k])
  {
    if k > 0 {
      KeysAlong(c, t, items, at, k - 1);
      var i := k - 1;
      assert ReadHere(c, t, items, at, i);
      var e := items[i];
      KeysStep(c, t, at[i], items[..i], e.0, e.1, at[i + 1], items[..i + 1]);
    } else {
      assert items[..0] == [];
    }
  }

  lemma EndRead(c: Context, t: Text, p: nat, items: Items)
    requires Has(t, p, [GT])
    ensures KeyValues(c, t, p, items) == Ok((items, p + 1))
  {
    HasAt(t, p, [GT], 0);
    assert t[p..p] == [];
  }

  lemma KeysReadAlong(c: Context, t: Text, tag: Tag, at: seq<nat>)
    requires Reading(c, tag) && Laid(t, ItemTexts(tag.items), at) && Has(t, at[|tag.items|], [GT]) && at[0] <= |t|
    ensures KeyValues(c, t, at[0], []) == Ok((tag.items, at[|tag.items|] + 1))
  {
    var n := |tag.items|;
    forall i | 0 <= i < n ensures ReadHere(c, t, tag.items, at, i) {
      KeyRead(c, t, tag, at, i);
    }
    KeysAlong(c, t, tag.items, at, n);
    assert tag.items[..n] == tag.items;
    EndRead(c, t, at[n], tag.items);
  }

  lemma KeysRead(c: Context, t: Text, p: nat, tag: Tag, rest: Text)
    requires Reading(c, tag) && rest == KeysText(tag.items) + [GT] && Has(t, p, rest)
    ensures p <= |t| && KeyValues(c, t, p, []) == Ok((tag.items, p + |rest|))
  {
    hide KeyValues, Reading, Has, Laid;
    var parts, n := ItemTexts(tag.items), |tag.items|;
    HasParts(t, p, Joined(parts, n), [GT]);
    var at := Lay(t, p, parts, n);
    assert parts[..n] == parts;
    KeysReadAlong(c, t, tag, at);
  }

  // ------------------------------------------------- one tag

  /** A blank before a key makes no difference. */
  lemma BlankSkipped(c: Context, t: Text, p: nat)
    requires p < |t| && t[p] == 32
    ensures KeyValues(c, t, p, []) == KeyValues(c, t, p + 1, [])
  {
    assert SkipSpace(t, p) == SkipSpace(t, p + 1);
    assert IterNext(t, p) == IterNext(t, p + 1);
    assert KeyValue(c, t, p) == KeyValue(c, t, p + 1);
  }

  lemma HeadRead(t: Text, p: nat, name: Text, d: Byte)
    requires Word(name) && (d == GT || d == 32) && Has(t, p, name + [d])
    ensures TagHead(t, p) == Ok((name, if d == GT then p + |name| else p + |name| + 1))
  {
    WordRead(t, p, name, d);
  }

  /** What follows the name begins with a blank, or it is the end of the tag. */
  lemma BehindName(items: Items)
    ensures (KeysText(items) + [GT])[0] == if items == [] then GT else 32
  {
    if items != [] {
      var parts := ItemTexts(items);
      assert parts[0] == ItemText(items[0].0, items[0].1);
      FirstByte(parts, |parts|);
    }
  }

  lemma {:induction false} FirstByte(parts: seq<Text>, n: nat)
    requires 0 < n <= |parts| && parts[0] != []
    ensures Joined(parts, n) != [] && Joined(parts, n)[0] == parts[0][0]
  {
    if n > 1 {
      FirstByte(parts, n - 1);
    } else {
      assert Joined(parts, 0) + parts[0] == parts[0];
    }
  }

  /** The name of a tag is read up to the blank or `>` behind it. */
  lemma HeadBefore(t: Text, p: nat, name: Text, q: nat)
    requires Word(name) && Has(t, p, name) && q == p + |name| && q < |t| && (t[q] == GT || t[q] == 32)
    ensures TagHead(t, p) == Ok((name, if t[q] == GT then q else q + 1))
  {
    assert t[p..q + 1] == t[p..q] + [t[q]] == name + [t[q]];
    HeadRead(t, p, name, t[q]);
  }

  lemma TagOfParts(c: Context, t: Text, p: nat, name: Text, q: nat, items: Items, next: nat)
    requires p <= |t| && TagHead(t, p) == Ok((name, q)) && KeyValues(c, t, q, []) == Ok((items, next))
    ensures TagText(c, t, p) == Ok((name, items, next))
  {
  }

  /** The keys are read the same from the blank before them and from behind it. */
  lemma TagWithKeys(c: Context, t: Text, p: nat, name: Text, q: nat, items: Items, next: nat)
    requires Word(name) && Has(t, p, name) && q == p + |name| && q < |t| && (t[q] == GT || t[q] == 32)
    requires KeyValues(c, t, q, []) == Ok((items, next))
    ensures TagText(c, t, p) == Ok((name, items, next))
  {
    hide KeyValues, TagText, Has;
    HeadBefore(t, p, name, q);
    if t[q] == 32 {
      BlankSkipped(c, t, q);
    }
    TagOfParts(c, t, p, name, if t[q] == GT then q else q + 1, items, next);
  }

  lemma KeysBegin(t: Text, q: nat, tag: Tag, rest: Text)
    requires rest == KeysText(tag.items) + [GT] && Has(t, q, rest)
    ensures q < |t| && (t[q] == GT || t[q] == 32)
  {
    BehindName(tag.items);
    HasAt(t, q, rest, 0);
  }

  /** The text of a written tag is read back whole. */
  lemma TagRead(c: Context, t: Text, p: nat, tag: Tag, q: nat, rest: Text)
    requires Reading(c, tag) && Word(tag.name) && rest == KeysText(tag.items) + [GT]
    requires Has(t, p, tag.name) && q == p + |tag.name| && Has(t, q, rest)
    ensures TagText(c, t, p) == Ok((tag.name, tag.items, q + |rest|))
  {
    hide KeyValues, TagText, Reading, Has, KeysText;
    KeysBegin(t, q, tag, rest);
    KeysRead(c, t, q, tag, rest);
    TagWithKeys(c, t, p, tag.name, q, tag.items, q + |rest|);
  }

  // ------------------------------------------------- a whole file

  /** The context in which a tag without effect is read never changes. */
  lemma ReadingIn(env: Env, b: Book, flags: Flags, tag: Tag)
    requires Predefined(ContextIn(env, b, flags)) && !flags.compat && Writable(env.o, tag)
    requires forall e :: env.o.key(e) == e.0
    ensures Reading(ContextIn(env, b, flags), tag) && Word(tag.name)
  {
    var c := ContextIn(env, b, flags);
    forall i | 0 <= i < |tag.items|
      ensures c.add(tag.items[..i], tag.items[i].0, tag.items[i].1) == Some(tag.items[..i + 1])
    {
      KeyAppended(env.o, tag.items, i);
    }
  }

  function Added(b: Book, tags: seq<Tag>): Book {
    b.(output := b.output + tags)
  }

  /** What a file still has to contain once it contained a tag of this name. */
  function Wanting(required: Text, name: Text): Text {
    if name == required then [] else required
  }

  /** The same after the first `k` tags. */
  function Missing(required: Text, tags: seq<Tag>, k: nat): Text
    requires k <= |tags|
  {
    if k == 0 then required else Wanting(Missing(required, tags, k - 1), tags[k - 1].name)
  }

  lemma {:induction false} MissingExactly(required: Text, tags: seq<Tag>, k: nat)
    requires k <= |tags|
    ensures Missing(required, tags, k) == [] || Missing(required, tags, k) == required
    ensures Missing(required, tags, k) == [] <==> required == [] || exists i :: 0 <= i < k && tags[i].name == required
  {
    if k > 0 {
      MissingExactly(required, tags, k - 1);
    }
  }

  lemma TagStep(env: Env, streaming: seq<Text>, b: Book, t: Text, p: nat, flags: Flags, want: Text, b1: Book, q: nat, want': Text)
    requires p < |t| && t[p] == LT && ParseTag(env, streaming, b, t, p + 1, flags, want) == (Ok(TagEnd(q, flags, want')), b1)
    ensures ParseText(env, streaming, b, t, p, flags, want) == ParseText(env, streaming, b1, t, q, flags, want')
  {
  }

  lemma LineStep(env: Env, streaming: seq<Text>, b: Book, t: Text, p: nat, flags: Flags, want: Text)
    requires p < |t| && t[p] == LF
    ensures ParseText(env, streaming, b, t, p, flags, want) == ParseText(env, streaming, b, t, p + 1, flags, want)
  {
  }

  /** A plain tag changes nothing but the output and what the file still has to contain. */
  lemma PlainTag(env: Env, streaming: seq<Text>, b: Book, t: Text, p: nat, flags: Flags, want: Text, tag: Tag, q: nat)
    requires p <= |t| && KindOf(tag.name) == Plain && tag.name != []
    requires TagText(ContextIn(env, b, flags), t, p) == Ok((tag.name, tag.items, q))
    ensures ParseTag(env, streaming, b, t, p, flags, want) == (Ok(TagEnd(q, flags, Wanting(want, tag.name))), Added(b, [tag]))
  {
    assert Act(env, streaming, b, tag.name, tag.items, flags) == Outcome(None, flags, Added(b, [tag]));
  }

  /** A plain tag and the line end behind it are passed, and the tag is kept. */
  lemma TagPassed(env: Env, streaming: seq<Text>, b: Book, t: Text, p: nat, flags: Flags, want: Text, tag: Tag, q: nat)
    requires p < |t| && t[p] == LT && q < |t| && t[q] == LF && KindOf(tag.name) == Plain && tag.name != []
    requires TagText(ContextIn(env, b, flags), t, p + 1) == Ok((tag.name, tag.items, q))
    ensures ParseText(env, streaming, b, t, p, flags, want)
         == ParseText(env, streaming, Added(b, [tag]), t, q + 1, flags, Wanting(want, tag.name))
  {
    PlainTag(env, streaming, b, t, p + 1, flags, want, tag, q);
    TagStep(env, streaming, b, t, p, flags, want, Added(b, [tag]), q, Wanting(want, tag.name));
    LineStep(env, streaming, Added(b, [tag]), t, q, flags, Wanting(want, tag.name));
  }

  lemma TagParsed(env: Env, streaming: seq<Text>, b: Book, t: Text, p: nat, flags: Flags, want: Text, tag: Tag)
    requires Predefined(ContextIn(env, b, flags)) && !flags.compat && Writable(env.o, tag)
    requires forall e :: env.o.key(e) == e.0
    requires Has(t, p, TagWritten(tag))
    ensures ParseText(env, streaming, b, t, p, flags, want)
         == ParseText(env, streaming, Added(b, [tag]), t, p + |TagWritten(tag)|, flags, Wanting(want, tag.name))
  {
    hide ParseText, TagText, Reading, KeysText, Wanting;
    var rest := KeysText(tag.items) + [GT];
    var inner := tag.name + rest;
    HasParts(t, p, [LT] + inner, [LF]);
    HasParts(t, p, [LT], inner);
    HasAt(t, p, [LT], 0);
    HasAt(t, p + 1 + |inner|, [LF], 0);
    ReadingIn(env, b, flags, tag);
    HasParts(t, p + 1, tag.name, rest);
    TagRead(ContextIn(env, b, flags), t, p + 1, tag, p + 1 + |tag.name|, rest);
    TagPassed(env, streaming, b, t, p, flags, want, tag, p + 1 + |inner|);
  }

  ghost predicate AllWritable(env: Env, tags: seq<Tag>) {
    (forall e :: env.o.key(e) == e.0) && forall i :: 0 <= i < |tags| ==> Writable(env.o, tags[i])
  }

  lemma TagParsedAt(env: Env, streaming: seq<Text>, b: Book, t: Text, flags: Flags, required: Text, tags: seq<Tag>,
                    at: seq<nat>, i: nat)
    requires Predefined(ContextIn(env, b, flags)) && !flags.compat && AllWritable(env, tags)
    requires Laid(t, TagTexts(tags), at) && i < |tags|
    ensures at[i] <= |t| && at[i + 1] <= |t|
    ensures ParseText(env, streaming, Added(b, tags[..i]), t, at[i], flags, Missing(required, tags, i))
         == ParseText(env, streaming, Added(b, tags[..i + 1]), t, at[i + 1], flags, Missing(required, tags, i + 1))
  {
    hide ParseText, Wanting;
    assert TagTexts(tags)[i] == TagWritten(tags[i]);
    TagParsed(env, streaming, Added(b, tags[..i]), t, at[i], flags, Missing(required, tags, i), tags[i]);
    assert b.output + tags[..i] + [tags[i]] == b.output + tags[..i + 1];
  }

  lemma {:induction false} TagsParsed(env: Env, streaming: seq<Text>, b: Book, t: Text, flags: Flags, required: Text,
                                      tags: seq<Tag>, at: seq<nat>, k: nat)
    requires Predefined(ContextIn(env, b, flags)) && !flags.compat && AllWritable(env, tags)
    requires Laid(t, TagTexts(tags), at) && at[0] <= |t| && k <= |tags|
    ensures at[k] <= |t|
    ensures ParseText(env, streaming, Added(b, []), t, at[0], flags, required)
         == ParseText(env, streaming, Added(b, tags[..k]), t, at[k], flags, Missing(required, tags, k))
  {
    hide ParseText;
    if k == 0 {
      assert tags[..0] == [];
    } else {
      TagsParsed(env, streaming, b, t, flags, required, tags, at, k - 1);
      TagParsedAt(env, streaming, b, t, flags, required, tags, at, k - 1);
    }
  }

  /** What a file, or a program, yields is read as the tags that were written; it is refused
      exactly if a tag that it must have is not among them. */
  lemma WrittenIsRead(env: Env, streaming: seq<Text>, b: Book, path: Text, flags: Flags, required: Text, tags: seq<Tag>, exec: bool)
    requires Predefined(ContextIn(env, b, flags)) && !flags.compat && AllWritable(env, tags)
    requires path !in streaming && Open(env, path, exec) == Some(Written(tags))
    ensures var b' := b.(output := b.output + tags);
            Process(env, streaming, b, path, flags, required, exec)
            == if required == [] || exists i :: 0 <= i < |tags| && tags[i].name == required then (Ok(true), b')
               else (Ok(false), b'.Report(Failed(RequiredTagMissing)))
  {
    var t, parts, n := Written(tags), TagTexts(tags), |tags|;
    assert t[0..|t|] == t;
    var at := Lay(t, 0, parts, n);
    assert parts[..n] == parts && tags[..n] == tags && b.output + [] == b.output;
    TagsParsed(env, streaming + [path], b, t, flags, required, tags, at, n);
    MissingExactly(required, tags, n);
  }

  /** The round trip for whole files: a file of plain tags, written key by key with
      Escape, loads, and adds exactly those tags in their order. */
  lemma WrittenReadsBack(env: Env, streaming: seq<Text>, b: Book, path: Text, flags: Flags, tags: seq<Tag>)
    requires Predefined(ContextIn(env, b, flags)) && !flags.compat && AllWritable(env, tags)
    requires path !in streaming && path in env.files && env.files[path] == Written(tags)
    ensures Process(env, streaming, b, path, flags, [], false) == (Ok(true), b.(output := b.output + tags))
  {
    WrittenIsRead(env, streaming, b, path, flags, [], tags, false);
  }

  // ------------------------------------------------- a file that is included

  /** An include tag by file puts the tags of the file where the tag stands. */
  lemma IncludedFile(env: Env, streaming: seq<Text>, b: Book, items: Items, flags: Flags, tags: seq<Tag>)
    requires !flags.noInclude && Read(items, Ascii("file")).Some? && Read(items, Ascii("must_have_tag")).None?
    requires var f, path := Narrowed(flags, items, false), env.configPath(Read(items, Ascii("file")).value);
             && Predefined(ContextIn(env, b, f)) && !f.compat && AllWritable(env, tags)
             && path !in streaming && path in env.files && env.files[path] == Written(tags)
    ensures IncludeTag(env, streaming, b, items, flags) == (None, b.(output := b.output + tags))
  {
    var f, path := Narrowed(flags, items, false), env.configPath(Read(items, Ascii("file")).value);
    WrittenReadsBack(env, streaming, b, path, f, tags);
  }

  /** The tags of all files of a directory, in the order of the files. */
  function Flat(files: seq<seq<Tag>>): seq<Tag> {
    if files == [] then [] else files[0] + Flat(files[1..])
  }

  /** Every name of the directory is a file of these tags, and none is being read. */
  ghost predicate DirectoryHolds(env: Env, streaming: seq<Text>, dir: Text, names: seq<Text>, files: seq<seq<Tag>>) {
    && |names| == |files|
    && forall i :: 0 <= i < |names| ==>
         var path := dir + [SLASH] + names[i];
         path !in streaming && path in env.files && env.files[path] == Written(files[i]) && AllWritable(env, files[i])
  }

  /** The first file of a directory, and what is left to do behind it. */
  lemma FirstFile(env: Env, streaming: seq<Text>, b: Book, dir: Text, names: seq<Text>, flags: Flags, b': Book)
    requires names != [] && Process(env, streaming, b, dir + [SLASH] + names[0], flags, [], false) == (Ok(true), b')
    ensures IncludeAll(env, streaming, b, dir, names, flags, []) == IncludeAll(env, streaming, b', dir, names[1..], flags, [])
  {
    hide Process;
  }

  lemma {:induction false} DirectoryRead(env: Env, streaming: seq<Text>, b: Book, dir: Text, names: seq<Text>,
                                         files: seq<seq<Tag>>, flags: Flags)
    requires Predefined(ContextIn(env, b, flags)) && !flags.compat && DirectoryHolds(env, streaming, dir, names, files)
    ensures IncludeAll(env, streaming, b, dir, names, flags, []) == (None, Added(b, Flat(files)))
    decreases |names|
  {
    hide IncludeAll, Process, Written, AllWritable, Predefined, ContextIn;
    if names == [] {
      NoFiles(env, streaming, b, dir, flags);
    } else {
      WrittenReadsBack(env, streaming, b, dir + [SLASH] + names[0], flags, files[0]);
      FirstFile(env, streaming, b, dir, names, flags, Added(b, files[0]));
      RestHolds(env, streaming, dir, names, files);
      SameEntities(env, b, Added(b, files[0]), flags);
      DirectoryRead(env, streaming, Added(b, files[0]), dir, names[1..], files[1..], flags);
      AddedTwice(b, files[0], Flat(files[1..]));
    }
  }

  lemma NoFiles(env: Env, streaming: seq<Text>, b: Book, dir: Text, flags: Flags)
    ensures IncludeAll(env, streaming, b, dir, [], flags, []) == (None, Added(b, []))
  {
    assert b.output + [] == b.output;
  }

  lemma AddedTwice(b: Book, x: seq<Tag>, y: seq<Tag>)
    ensures Added(Added(b, x), y) == Added(b, x + y)
  {
    Regroup(b.output, x, y);
  }

  lemma RestHolds(env: Env, streaming: seq<Text>, dir: Text, names: seq<Text>, files: seq<seq<Tag>>)
    requires DirectoryHolds(env, streaming, dir, names, files) && names != []
    ensures DirectoryHolds(env, streaming, dir, names[1..], files[1..])
  {
    forall i | 0 <= i < |names[1..]| ensures names[1..][i] == names[i + 1] && files[1..][i] == files[i + 1] {
    }
  }

  lemma SameEntities(env: Env, b: Book, b': Book, flags: Flags)
    requires b'.entities == b.entities
    ensures ContextIn(env, b', flags) == ContextIn(env, b, flags)
  {
  }

  /** An include tag by directory puts the tags of all its files there, file by file. */
  lemma IncludedDirectory(env: Env, streaming: seq<Text>, b: Book, items: Items, flags: Flags, files: seq<seq<Tag>>)
    requires !flags.noInclude && Read(items, Ascii("file")).None? && Read(items, Ascii("directory")).Some?
    requires Read(items, Ascii("must_have_tag")).None?
    requires var f, dir := Narrowed(flags, items, false), env.configPath(Read(items, Ascii("directory")).value);
             && Predefined(ContextIn(env, b, f)) && !f.compat
             && dir in env.dirs && DirectoryHolds(env, streaming, dir, env.dirs[dir], files)
    ensures IncludeTag(env, streaming, b, items, flags) == (None, b.(output := b.output + Flat(files)))
  {
    var f, dir := Narrowed(flags, items, false), env.configPath(Read(items, Ascii("directory")).value);
    DirectoryRead(env, streaming, b, dir, env.dirs[dir], files, f);
  }

  /** An include tag by program puts the tags that the program writes there. */
  lemma IncludedProgram(env: Env, streaming: seq<Text>, b: Book, items: Items, flags: Flags, tags: seq<Tag>)
    requires !flags.noInclude && !flags.noExec && Read(items, Ascii("must_have_tag")).None?
    requires Read(items, Ascii("file")).None? && Read(items, Ascii("directory")).None? && Read(items, Ascii("executable")).Some?
    requires var f, path := Narrowed(flags, items, true), Read(items, Ascii("executable")).value;
             && Predefined(ContextIn(env, b, f)) && !f.compat && AllWritable(env, tags)
             && path !in streaming && Open(env, path, true) == Some(Written(tags))
    ensures IncludeTag(env, streaming, b, items, flags) == (None, b.(output := b.output + tags))
  {
    var f, path := Narrowed(flags, items, true), Read(items, Ascii("executable")).value;
    WrittenIsRead(env, streaming, b, path, f, [], tags, true);
  }

  // ------------------------------------------------- a file that is kept whole

  /** What `files` and `execfiles` keep: under each key the text of what was named for it last,
      and nothing else changes. */
  lemma {:induction false} LoadedWhole(env: Env, b: Book, items: Items, flags: Flags, exec: bool, j: nat)
    requires LoadAll(env, b, items, flags, exec).0.None? && j < |items|
    requires forall i :: j < i < |items| ==> items[i].0 != items[j].0
    ensures var b' := LoadAll(env, b, items, flags, exec).1;
            && !flags.noInclude && (exec ==> !flags.noExec)
            && items[j].0 in b'.contents
            && Some(b'.contents[items[j].0]) == Open(env, if exec then items[j].1 else env.configPath(items[j].1), exec)
            && b'.output == b.output && b'.entities == b.entities && b'.log == b.log
    decreases |items|
  {
    var b1 := Load(env, b, items[0].0, items[0].1, flags, exec).1;
    if j > 0 {
      assert items[1..][j - 1] == items[j];
      forall i | j - 1 < i < |items[1..]| ensures items[1..][i].0 != items[j].0 {
        assert items[1..][i] == items[i + 1];
      }
      LoadedWhole(env, b1, items[1..], flags, exec, j - 1);
    } else {
      forall i | 0 <= i < |items[1..]| ensures items[1..][i].0 != items[0].0 {
        assert items[1..][i] == items[i + 1];
      }
      KeyUntouched(env, b1, items[1..], flags, exec, items[0].0);
    }
  }

  lemma {:induction false} KeyUntouched(env: Env, b: Book, items: Items, flags: Flags, exec: bool, key: Text)
    requires forall i :: 0 <= i < |items| ==> items[i].0 != key
    requires key in b.contents
    ensures var b' := LoadAll(env, b, items, flags, exec).1;
            && key in b'.contents && b'.contents[key] == b.contents[key]
            && b'.output == b.output && b'.entities == b.entities && b'.log == b.log
    decreases |items|
  {
    if items != [] {
      forall i | 0 <= i < |items[1..]| ensures items[1..][i].0 != key {
        assert items[1..][i] == items[i + 1];
      }
      var (e, b1) := Load(env, b, items[0].0, items[0].1, flags, exec);
      if e.None? {
        KeyUntouched(env, b1, items[1..], flags, exec, key);
      }
    }
  }
}
