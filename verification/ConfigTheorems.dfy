/**
  What holds of every load of a configuration, whatever its files contain.
 */
module ConfigTheorems {
  import opened Wrappers
  import opened Bytes
  import opened CaseFold
  import opened ConfigText
  import opened Config
  import opened ConfigParser
  import FlatMap

  // ------------------------------------------------- the include stack

  lemma OneLess(all: set<Text>, before: seq<Text>, path: Text)
    requires path in all && path !in before
    ensures |all - (set p | p in before + [path])| == |all - (set p | p in before)| - 1
  {
    var on := set p | p in before;
    assert (set p | p in before + [path]) == on + {path};
    assert all - (on + {path}) == (all - on) - {path};
  }

  lemma OuterNesting(env: Env, streaming: seq<Text>)
    requires Nesting(env, streaming) && streaming != []
    ensures var last := |streaming| - 1;
            && Nesting(env, streaming[..last]) && streaming == streaming[..last] + [streaming[last]]
            && streaming[last] in env.files.Keys + env.programs.Keys && streaming[last] !in streaming[..last]
  {
  }

  /** Files nest no deeper than there are paths that can be opened. */
  lemma {:induction false} NestingIsBounded(env: Env, streaming: seq<Text>)
    requires Nesting(env, streaming)
    ensures |streaming| + Free(env, streaming) == |env.files.Keys + env.programs.Keys|
  {
    var all := env.files.Keys + env.programs.Keys;
    if streaming == [] {
      assert all - (set path | path in streaming) == all;
    } else {
      var last := |streaming| - 1;
      OuterNesting(env, streaming);
      NestingIsBounded(env, streaming[..last]);
      OneLess(all, streaming[..last], streaming[last]);
    }
  }

  // ------------------------------------------------- what is logged

  /** Messages and tags are only ever added, and none of the new messages is the
      internal error of putting two characters back. */
  ghost predicate Grown(b: Book, b': Book) {
    && b.log <= b'.log && b.output <= b'.output
    && forall i {:trigger b'.log[i]} :: |b.log| <= i < |b'.log| ==> b'.log[i] != Failed(UngetTwice)
  }

  /** ... and all new messages are warnings. */
  ghost predicate Clean(b: Book, b': Book) {
    && Grown(b, b')
    && forall i {:trigger b'.log[i]} :: |b.log| <= i < |b'.log| ==> b'.log[i] == NotUtf8
  }

  ghost predicate Failing(e: Option<Error>, b: Book, b': Book) {
    match e
    case None => Clean(b, b')
    case Some(error) => Grown(b, b') && error != UngetTwice
  }

  lemma Onward(e: Option<Error>, b: Book, b1: Book, b2: Book)
    requires Clean(b, b1) && Failing(e, b1, b2)
    ensures Failing(e, b, b2)
  {
  }

  lemma LoadAccounted(env: Env, b: Book, key: Text, name: Text, flags: Flags, exec: bool)
    ensures var (e, b') := Load(env, b, key, name, flags, exec); Failing(e, b, b')
  {
  }

  lemma {:induction false} LoadAllAccounted(env: Env, b: Book, items: Items, flags: Flags, exec: bool)
    ensures var (e, b') := LoadAll(env, b, items, flags, exec); Failing(e, b, b')
    decreases |items|
  {
    if items != [] {
      var (e, b') := Load(env, b, items[0].0, items[0].1, flags, exec);
      LoadAccounted(env, b, items[0].0, items[0].1, flags, exec);
      if e.None? {
        LoadAllAccounted(env, b', items[1..], flags, exec);
        var (e2, b2) := LoadAll(env, b', items[1..], flags, exec);
        Onward(e2, b, b', b2);
      }
    }
  }

  /** A file that cannot be entered changes nothing; one that is entered loads exactly if
      nothing but warnings was logged on the way. */
  lemma {:induction false} ProcessAccounted(env: Env, streaming: seq<Text>, b: Book, path: Text, flags: Flags,
                                            required: Text, exec: bool)
    ensures var (r, b') := Process(env, streaming, b, path, flags, required, exec);
            match r
            case Err(e) => b' == b && e == (if path in streaming then Looped(path) else Unreadable(path))
            case Ok(ok) => Grown(b, b') && (ok <==> Clean(b, b'))
    decreases Free(env, streaming), 0, 0
  {
    var file := Open(env, path, exec);
    if path !in streaming && file.Some? {
      FreeShrinks(env, streaming, path, exec);
      TextAccounted(env, streaming + [path], b, file.value, 0, flags, required);
    }
  }

  lemma {:induction false} NestedAccounted(env: Env, streaming: seq<Text>, b: Book, path: Text, flags: Flags,
                                           required: Text, exec: bool)
    ensures var (e, b') := Nested(env, streaming, b, path, flags, required, exec); Failing(e, b, b')
    decreases Free(env, streaming), 1, 0
  {
    ProcessAccounted(env, streaming, b, path, flags, required, exec);
  }

  lemma {:induction false} DirectoryAccounted(env: Env, streaming: seq<Text>, b: Book, dir: Text, names: seq<Text>,
                                              flags: Flags, required: Text)
    ensures var (e, b') := IncludeAll(env, streaming, b, dir, names, flags, required); Failing(e, b, b')
    decreases Free(env, streaming), 2, |names|
  {
    if names != [] {
      var (e, b') := Nested(env, streaming, b, dir + [SLASH] + names[0], flags, required, false);
      NestedAccounted(env, streaming, b, dir + [SLASH] + names[0], flags, required, false);
      if e.None? {
        DirectoryAccounted(env, streaming, b', dir, names[1..], flags, required);
        var (e2, b2) := IncludeAll(env, streaming, b', dir, names[1..], flags, required);
        Onward(e2, b, b', b2);
      }
    }
  }

  lemma {:induction false} IncludeAccounted(env: Env, streaming: seq<Text>, b: Book, items: Items, flags: Flags)
    ensures var (e, b') := IncludeTag(env, streaming, b, items, flags); Failing(e, b, b')
    decreases Free(env, streaming), 3, 0
  {
    var must := Read(items, Ascii("must_have_tag"));
    var required := if must.Some? then must.value else [];
    var file, directory, program :=
      Read(items, Ascii("file")), Read(items, Ascii("directory")), Read(items, Ascii("executable"));
    if file.Some? {
      NestedAccounted(env, streaming, b, env.configPath(file.value), Narrowed(flags, items, false), required, false);
    } else if directory.Some? {
      var dir := env.configPath(directory.value);
      if dir in env.dirs {
        DirectoryAccounted(env, streaming, b, dir, env.dirs[dir], Narrowed(flags, items, false), required);
      }
    } else if program.Some? {
      NestedAccounted(env, streaming, b, program.value, Narrowed(flags, items, true), required, true);
    }
  }

  lemma {:induction false} ActAccounted(env: Env, streaming: seq<Text>, b: Book, name: Text, items: Items, flags: Flags)
    ensures var o := Act(env, streaming, b, name, items, flags); Failing(o.error, b, o.book)
    decreases Free(env, streaming), 4, 0
  {
    match KindOf(name)
    case Include => IncludeAccounted(env, streaming, b, items, flags);
    case Files => LoadAllAccounted(env, b, items, flags, false);
    case ExecFiles => LoadAllAccounted(env, b, items, flags, true);
    case Define => DefineAccounted(env.o, b, items, flags);
    case Format => FormatAccounted(b, items, flags);
    case Plain => PlainAccounted(b, Tag(name, items));
  }

  lemma DefineAccounted(o: KeyOrder, b: Book, items: Items, flags: Flags)
    ensures var r := DefineEntity(o, b, items, flags); Failing(r.error, b, r.book)
  {
  }

  lemma FormatAccounted(b: Book, items: Items, flags: Flags)
    ensures Failing(SetFormat(items, flags).0, b, b)
  {
  }

  lemma PlainAccounted(b: Book, tag: Tag)
    ensures Clean(b, b.(output := b.output + [tag]))
  {
  }

  lemma {:induction false} TagAccounted(env: Env, streaming: seq<Text>, b: Book, t: Text, p: nat, flags: Flags, required: Text)
    requires p <= |t|
    ensures var (r, b') := ParseTag(env, streaming, b, t, p, flags, required);
            Failing(if r.Err? then Some(r.error) else None, b, b')
    decreases Free(env, streaming), 6, 0
  {
    match TagText(ContextIn(env, b, flags), t, p)
    case Err(_) =>
    case Ok((name, items, next)) => ActAccounted(env, streaming, b, name, items, flags);
  }

  lemma Reported(b: Book, b1: Book, e: Error)
    requires Grown(b, b1) && e != UngetTwice
    ensures Grown(b, b1.Report(Failed(e))) && !Clean(b, b1.Report(Failed(e)))
  {
    assert b1.Report(Failed(e)).log[|b1.log|] == Failed(e);
  }

  lemma Warned(b: Book)
    ensures Clean(b, b.Report(NotUtf8))
  {
  }

  lemma Continued(b: Book, b1: Book, b2: Book)
    requires Clean(b, b1) && Grown(b1, b2)
    ensures Grown(b, b2) && (Clean(b, b2) <==> Clean(b1, b2))
  {
  }

  lemma {:induction false} TextAccounted(env: Env, streaming: seq<Text>, b: Book, t: Text, p: nat, flags: Flags, required: Text)
    requires p <= |t|
    ensures var (ok, b') := ParseText(env, streaming, b, t, p, flags, required);
            Grown(b, b') && (ok <==> Clean(b, b'))
    decreases Free(env, streaming), 7, |t| - p
  {
    if p == |t| {
      Reported(b, b, RequiredTagMissing);
    } else if t[p] == HASH {
      match Comment(t, p + 1)
      case Err(e) => Reported(b, b, e);
      case Ok(next) => TextAccounted(env, streaming, b, t, next, flags, required);
    } else if t[p] == LT {
      TagAccounted(env, streaming, b, t, p + 1, flags, required);
      match ParseTag(env, streaming, b, t, p + 1, flags, required)
      case (Err(e), b1) => Reported(b, b1, e);
      case (Ok(end), b1) =>
        TextAccounted(env, streaming, b1, t, end.next, end.flags, end.required);
        Continued(b, b1, ParseText(env, streaming, b1, t, end.next, end.flags, end.required).1);
    } else if t[p] in {32, CR, 9, LF} {
      TextAccounted(env, streaming, b, t, p + 1, flags, required);
    } else if t[p] in {0xFE, 0xFF} {
      var b1 := b.Report(NotUtf8);
      Warned(b);
      TextAccounted(env, streaming, b1, t, p + 1, flags, required);
      Continued(b, b1, ParseText(env, streaming, b1, t, p + 1, flags, required).1);
    } else {
      Reported(b, b, TagExpected);
    }
  }

  /** The configuration loads exactly if nothing but warnings was logged, and it is never
      logged that two characters were put back. */
  lemma LoadsExactlyWhenQuiet(env: Env, b: Book, path: Text)
    ensures var (ready, b') := Loaded(env, b, path);
            && b.log <= b'.log && b.output <= b'.output
            && (ready <==> forall i :: |b.log| <= i < |b'.log| ==> b'.log[i] == NotUtf8)
            && forall i :: |b.log| <= i < |b'.log| ==> b'.log[i] != Failed(UngetTwice)
  {
    ProcessAccounted(env, [], b, path, NO_FLAGS, [], false);
    match Process(env, [], b, path, NO_FLAGS, [], false)
    case (Ok(_), _) =>
    case (Err(e), b') => Reported(b, b', e);
  }

  // ------------------------------------------------- the predefined entities

  /** A file that is read with the entities of a new parser, in XML format, can be
      written with Escape. */
  lemma PredefinedByDefault(m: seq<Byte>, env: Env, b: Book, flags: Flags)
    requires |m| == 256 && env.o == FlatMap.Insensitive(m) && b.entities == Defaults(env.o)
    ensures Predefined(ContextIn(env, b, flags))
  {
    Sizes();
    ExpandNamed(env.o, b.entities, env.vars, flags.noEnv, PREDEFINED[2].key);
    ExpandNamed(env.o, b.entities, env.vars, flags.noEnv, PREDEFINED[6].key);
    DefaultEntity(m, 2);
    DefaultEntity(m, 6);
  }

  lemma Sizes()
    ensures |PREDEFINED| == 7 && forall i :: 0 <= i < 7 ==> PREDEFINED[i].Assign?
    ensures PREDEFINED[2] == FlatMap.Assign([97, 109, 112], [AMP])
    ensures PREDEFINED[6] == FlatMap.Assign([113, 117, 111, 116], [QUOTE])
    ensures forall i :: 2 < i < 7 ==> |PREDEFINED[i].key| != 3
  {
    assert Ascii("amp") == [97, 109, 112];
    assert Ascii("quot") == [113, 117, 111, 116];
  }

  /** A name that is neither numeric nor from the environment is looked up. */
  lemma ExpandNamed(o: KeyOrder, entities: Items, vars: map<Text, Text>, noEnv: bool, name: Text)
    requires name != [] && name[0] != HASH && name[0] != 101
    ensures var r := FlatMap.Find(o, entities, name);
            r.Some? ==> Expand(o, entities, vars, noEnv, name) == Ok(entities[r.value].1)
  {
  }

  lemma CanonKeepsLength(m: seq<Byte>, a: Text)
    requires |m| == 256
    ensures |FlatMap.Insensitive<Text>(m).canon(a)| == |a|
  {
  }

  lemma DefaultsAre(o: KeyOrder)
    ensures Defaults(o) == FlatMap.Run(o, PREDEFINED)
  {
  }

  lemma DefaultEntity(m: seq<Byte>, j: nat)
    requires |m| == 256 && (j == 2 || j == 6) && j < |PREDEFINED|
    ensures var o, name := FlatMap.Insensitive(m), PREDEFINED[j].key;
            && FlatMap.Find(o, Defaults(o), name).Some?
            && Defaults(o)[FlatMap.Find(o, Defaults(o), name).value].1 == PREDEFINED[j].value
  {
    DefaultsAre(FlatMap.Insensitive(m));
    Sizes();
    hide *;
    FoundAfterRun(m, PREDEFINED, j);
  }

  lemma FoundAfterRun(m: seq<Byte>, ops: seq<FlatMap.Op<Text, Text>>, j: nat)
    requires |m| == 256 && j < |ops| && forall i :: 0 <= i < |ops| ==> ops[i].Assign?
    requires forall i :: j < i < |ops| ==> |ops[i].key| != |ops[j].key|
    ensures var o := FlatMap.Insensitive(m);
            var r := FlatMap.Find(o, FlatMap.Run(o, ops), ops[j].key);
            r.Some? && FlatMap.Run(o, ops)[r.value].1 == ops[j].value
  {
    var o := FlatMap.Insensitive<Text>(m);
    FlatMap.InsensitiveIsStrictWeak<Text>(m);
    forall i | j < i < |ops| ensures o.canon(ops[i].key) != o.canon(ops[j].key) {
      CanonKeepsLength(m, ops[i].key);
      CanonKeepsLength(m, ops[j].key);
    }
    FlatMap.LastAssignmentWins(o.canon, ops, j);
    FlatMap.RunAgrees(o, ops, ops[j].key);
  }

  // ------------------------------------------------- what define and format do

  /** A name that is looked up among the entities. */
  predicate Looked(name: Text) {
    name != [] && name[0] != HASH && !(Ascii("env.") <= name)
  }

  /** An entity means the same under two containers that agree on its class. */
  lemma SameExpansion(o: KeyOrder, e1: Items, e2: Items, vars: map<Text, Text>, noEnv: bool, name: Text)
    requires FlatMap.StrictWeak(o) && FlatMap.Strict(o, e1) && FlatMap.Strict(o, e2)
    requires o.canon(name) in FlatMap.Abstract(o, e1) <==> o.canon(name) in FlatMap.Abstract(o, e2)
    requires o.canon(name) in FlatMap.Abstract(o, e1) ==>
               FlatMap.Abstract(o, e1)[o.canon(name)] == FlatMap.Abstract(o, e2)[o.canon(name)]
    ensures Expand(o, e1, vars, noEnv, name) == Expand(o, e2, vars, noEnv, name)
  {
    hide FlatMap.StrictWeak, FlatMap.Strict, FlatMap.Find, FlatMap.Abstract;
    FlatMap.FindAgrees(o, e1, name);
    FlatMap.FindAgrees(o, e2, name);
  }

  lemma FoundExpansion(o: KeyOrder, entities: Items, vars: map<Text, Text>, noEnv: bool, name: Text)
    requires FlatMap.StrictWeak(o) && FlatMap.Strict(o, entities) && Looked(name)
    requires o.canon(name) in FlatMap.Abstract(o, entities)
    ensures Expand(o, entities, vars, noEnv, name) == Ok(FlatMap.Abstract(o, entities)[o.canon(name)].1)
  {
    hide FlatMap.StrictWeak, FlatMap.Strict, FlatMap.Find, FlatMap.Abstract;
    FlatMap.FindAgrees(o, entities, name);
  }

  /** After a `define` its name stands for its value, and every other name for what it did. */
  lemma DefinedExpands(o: KeyOrder, b: Book, items: Items, flags: Flags, vars: map<Text, Text>, noEnv: bool, other: Text)
    requires FlatMap.StrictWeak(o) && FlatMap.Strict(o, b.entities) && forall e :: o.key(e) == e.0
    requires DefineEntity(o, b, items, flags).error.None?
    ensures var name, value := AsString(items, Ascii("name")), AsString(items, Ascii("value"));
            var b' := DefineEntity(o, b, items, flags).book;
            && FlatMap.Strict(o, b'.entities)
            && (Looked(name) ==> Expand(o, b'.entities, vars, noEnv, name) == Ok(value))
            && (o.canon(other) != o.canon(name) ==>
                  Expand(o, b'.entities, vars, noEnv, other) == Expand(o, b.entities, vars, noEnv, other))
  {
    hide FlatMap.StrictWeak, FlatMap.Strict, FlatMap.Find, FlatMap.Abstract, FlatMap.Assigned, Expand, Looked, AsString, Ascii;
    var name, value := AsString(items, Ascii("name")), AsString(items, Ascii("value"));
    var entities := FlatMap.Assigned(o, b.entities, name, value);
    FlatMap.AssignedAgrees(o, b.entities, name, value);
    if Looked(name) {
      FoundExpansion(o, entities, vars, noEnv, name);
    }
    if o.canon(other) != o.canon(name) {
      SameExpansion(o, entities, b.entities, vars, noEnv, other);
    }
  }

  /** After `format="compat"` an ampersand is an ordinary character, after `format="xml"` a
      backslash is. */
  lemma FormatTakesEffect(env: Env, b: Book, items: Items, flags: Flags, t: Text, p: nat)
    requires p < |t| && SetFormat(items, flags).0.None?
    ensures var format, c := AsString(items, Ascii("format")), ContextIn(env, b, SetFormat(items, flags).1);
            && (SameWord(format, Ascii("compat")) && t[p] == AMP ==> PieceAt(c, t, p) == Ok(More([AMP], p + 1)))
            && (SameWord(format, Ascii("xml")) && t[p] == BACKSLASH ==> PieceAt(c, t, p) == Ok(More([BACKSLASH], p + 1)))
            && (format == [] ==> SetFormat(items, flags).1 == flags)
  {
    WordsApart(AsString(items, Ascii("format")));
  }

  lemma WordsApart(w: Text)
    ensures SameWord(w, Ascii("xml")) ==> !SameWord(w, Ascii("compat")) && w != []
    ensures SameWord(w, Ascii("compat")) ==> w != []
  {
    assert Ascii("xml")[0] == 120 && Ascii("compat")[0] == 99;
  }

  // ------------------------------------------------- the keys of a tag come once

  /** A key may join the keys of a tag exactly if none of them is the same but for its case;
      it joins with its value, and changes no other. */
  lemma AddKeyExactly(o: KeyOrder, items: Items, key: Text, value: Text)
    requires FlatMap.StrictWeak(o) && FlatMap.Strict(o, items) && forall e :: o.key(e) == e.0
    ensures var r := AddKey(o, items, key, value);
            && (r.None? <==> exists j :: 0 <= j < |items| && o.canon(items[j].0) == o.canon(key))
            && (r.Some? ==> FlatMap.Strict(o, r.value)
                            && FlatMap.Abstract(o, r.value) == FlatMap.Abstract(o, items)[o.canon(key) := (key, value)])
  {
    FlatMap.FindAgrees(o, items, key);
    FlatMap.AbstractKeys(o, items, o.canon(key));
    if j :| 0 <= j < |items| && o.canon(items[j].0) == o.canon(key) {
      assert o.canon(o.key(items[j])) == o.canon(key);
    }
    FlatMap.AssignedAgrees(o, items, key, value);
  }

  lemma {:induction false} KeysOnce(o: KeyOrder, flags: Flags, entities: Items, vars: map<Text, Text>, t: Text, p: nat, items: Items)
    requires FlatMap.StrictWeak(o) && FlatMap.Strict(o, items) && (forall e :: o.key(e) == e.0) && p <= |t|
    ensures var r := KeyValues(ContextOf(o, flags, entities, vars), t, p, items);
            r.Ok? ==> FlatMap.Strict(o, r.value.0)
    decreases |t| - p
  {
    var c := ContextOf(o, flags, entities, vars);
    match KeyValue(c, t, p)
    case Ok(Skip(next)) => KeysOnce(o, flags, entities, vars, t, next, items);
    case Ok(Item(key, value, next)) =>
      AddKeyExactly(o, items, key, value);
      if AddKey(o, items, key, value).Some? {
        KeysOnce(o, flags, entities, vars, t, next, AddKey(o, items, key, value).value);
      }
    case _ =>
  }

  /** Whatever a file contains, in a tag that is read no key comes twice, whatever its case. */
  lemma TagKeysOnce(m: seq<Byte>, env: Env, b: Book, flags: Flags, t: Text, p: nat)
    requires |m| == 256 && env.o == FlatMap.Insensitive(m) && p <= |t|
    ensures var r := TagText(ContextIn(env, b, flags), t, p);
            r.Ok? ==> forall i, j :: 0 <= i < j < |r.value.1| ==> Fold(m, r.value.1[i].0) != Fold(m, r.value.1[j].0)
  {
    FlatMap.InsensitiveIsStrictWeak<Text>(m);
    match TagHead(t, p)
    case Err(_) =>
    case Ok((_, q)) =>
      KeysOnce(env.o, flags, b.entities, env.vars, t, q, []);
      var r := KeyValues(ContextIn(env, b, flags), t, q, []);
      if r.Ok? {
        StrictDiffer(m, r.value.0);
      }
  }

  lemma StrictDiffer(m: seq<Byte>, items: Items)
    requires |m| == 256 && FlatMap.Strict(FlatMap.Insensitive<Text>(m), items)
    ensures forall i, j :: 0 <= i < j < |items| ==> Fold(m, items[i].0) != Fold(m, items[j].0)
  {
    var o := FlatMap.Insensitive<Text>(m);
    forall i, j | 0 <= i < j < |items| ensures Fold(m, items[i].0) != Fold(m, items[j].0) {
      assert o.lt(o.key(items[i]), o.key(items[j]));
      LexTotal(Fold(m, items[i].0), Fold(m, items[j].0));
    }
  }

  // ------------------------------------------------- numeric entities

  function DigitByte(d: nat): Byte
    requires d < 16
  {
    if d < 10 then 48 + d else 87 + d
  }

  /** A number in decimal or hexadecimal digits. */
  function Numeral(n: nat, base: nat): (r: Text)
    requires base == 10 || base == 16
    ensures r != []
  {
    if n < base then [DigitByte(n)] else Numeral(n / base, base) + [DigitByte(n % base)]
  }

  lemma {:induction false} DigitsOfNumeral(n: nat, base: nat)
    requires base == 10 || base == 16
    ensures Digits(Numeral(n, base), base) == Some(n)
    ensures forall i :: 0 <= i < |Numeral(n, base)| ==> DigitValue(Numeral(n, base)[i]) < 16
  {
    var s := Numeral(n, base);
    if n < base {
      assert s[..0] == [];
      assert Digits(s[..0], base) == Some(0);
    } else {
      DigitsOfNumeral(n / base, base);
      assert s[..|s| - 1] == Numeral(n / base, base);
    }
  }

  lemma NumeralIsRead(n: nat, base: nat)
    requires base == 10 || base == 16
    ensures StrToUl(Numeral(n, base), base) == Some(if n >= ULONG then ULONG - 1 else n)
    ensures Numeral(n, base)[0] != 120
  {
    DigitsOfNumeral(n, base);
    var s := Numeral(n, base);
    assert DigitValue(s[0]) < 16;
    if |s| > 2 {
      assert DigitValue(s[1]) < 16;
    }
  }

  /** A number up to 255 stands for that byte, in decimal and in hexadecimal, and every other
      number is an error. */
  lemma NumericExpands(o: KeyOrder, entities: Items, vars: map<Text, Text>, noEnv: bool, n: nat)
    ensures var expected := if n <= 255 then Ok([n]) else Err(InvalidNumeric);
            && Expand(o, entities, vars, noEnv, [HASH] + Numeral(n, 10)) == expected
            && Expand(o, entities, vars, noEnv, [HASH, 120] + Numeral(n, 16)) == expected
  {
    NumeralIsRead(n, 10);
    NumeralIsRead(n, 16);
    assert ([HASH] + Numeral(n, 10))[1..] == Numeral(n, 10);
    assert ([HASH, 120] + Numeral(n, 16))[2..] == Numeral(n, 16);
  }
}
