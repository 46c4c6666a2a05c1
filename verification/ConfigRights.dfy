/**
  What the rights of a file mean: a file that may not run programs, include files or read
  the environment cannot, at any depth of inclusion.

  Each is stated as independence: the outcome is the same in two worlds that differ only
  in what the file has no right to.
 */
module ConfigRights {
  import opened Wrappers
  import opened Bytes
  import opened ConfigText
  import opened Config

  // ------------------------------------------------- what the text of a tag depends on

  ghost predicate SameContext(c1: Context, c2: Context) {
    && c1.compat == c2.compat
    && (forall name :: c1.expand(name) == c2.expand(name))
    && (forall items, key, value :: c1.add(items, key, value) == c2.add(items, key, value))
  }

  lemma PieceSame(c1: Context, c2: Context, t: Text, p: nat)
    requires SameContext(c1, c2) && p <= |t|
    ensures PieceAt(c1, t, p) == PieceAt(c2, t, p)
  {
  }

  lemma {:induction false} ValueSame(c1: Context, c2: Context, t: Text, p: nat, value: Text)
    requires SameContext(c1, c2) && p <= |t|
    ensures ValueAt(c1, t, p, value) == ValueAt(c2, t, p, value)
    decreases |t| - p
  {
    PieceSame(c1, c2, t, p);
    match PieceAt(c1, t, p)
    case Ok(More(text, next)) => ValueSame(c1, c2, t, next, value + text);
    case _ =>
  }

  lemma {:induction false} KeyValuesSame(c1: Context, c2: Context, t: Text, p: nat, items: Items)
    requires SameContext(c1, c2) && p <= |t|
    ensures KeyValues(c1, t, p, items) == KeyValues(c2, t, p, items)
    decreases |t| - p
  {
    KeyValueSame(c1, c2, t, p);
    match KeyValue(c1, t, p)
    case Ok(Skip(next)) => KeyValuesSame(c1, c2, t, next, items);
    case Ok(Item(key, value, next)) =>
      if c1.add(items, key, value).Some? {
        KeyValuesSame(c1, c2, t, next, c1.add(items, key, value).value);
      }
    case _ =>
  }

  lemma TagTextSame(c1: Context, c2: Context, t: Text, p: nat)
    requires SameContext(c1, c2) && p <= |t|
    ensures TagText(c1, t, p) == TagText(c2, t, p)
  {
    match TagHead(t, p)
    case Ok((_, q)) => KeyValuesSame(c1, c2, t, q, []);
    case Err(_) =>
  }

  lemma KeyValueSame(c1: Context, c2: Context, t: Text, p: nat)
    requires SameContext(c1, c2) && p <= |t|
    ensures KeyValue(c1, t, p) == KeyValue(c2, t, p)
  {
    match IterNext(t, p)
    case Ok((_, q)) =>
      if q + 1 < |t| {
        ValueSame(c1, c2, t, q + 2, []);
      }
    case Err(_) =>
  }

  // ------------------------------------------------- worlds that differ where it does not matter

  /** The two worlds agree on everything that a file with these rights may touch. */
  ghost predicate Alike(e1: Env, e2: Env, f: Flags) {
    && e1.o == e2.o && e1.configPath == e2.configPath
    && (f.noExec || f.noInclude || e1.programs == e2.programs)
    && (f.noInclude || (e1.files == e2.files && e1.dirs == e2.dirs))
    && (f.noEnv || e1.vars == e2.vars)
  }

  /** A file that is included has no rights that the including one has not. */
  lemma AlikeNarrowed(e1: Env, e2: Env, f: Flags, items: Items, default: bool)
    requires Alike(e1, e2, f)
    ensures Alike(e1, e2, Narrowed(f, items, default))
  {
  }

  lemma ContextsSame(e1: Env, e2: Env, b: Book, f: Flags)
    requires Alike(e1, e2, f)
    ensures SameContext(ContextIn(e1, b, f), ContextIn(e2, b, f))
  {
    forall name ensures Expand(e1.o, b.entities, e1.vars, f.noEnv, name) == Expand(e2.o, b.entities, e2.vars, f.noEnv, name) {
    }
  }

  lemma LoadSame(e1: Env, e2: Env, b: Book, key: Text, name: Text, flags: Flags, exec: bool)
    requires Alike(e1, e2, flags)
    ensures Load(e1, b, key, name, flags, exec) == Load(e2, b, key, name, flags, exec)
  {
  }

  lemma {:induction false} LoadAllSame(e1: Env, e2: Env, b: Book, items: Items, flags: Flags, exec: bool)
    requires Alike(e1, e2, flags)
    ensures LoadAll(e1, b, items, flags, exec) == LoadAll(e2, b, items, flags, exec)
    decreases |items|
  {
    if items != [] {
      LoadSame(e1, e2, b, items[0].0, items[0].1, flags, exec);
      var (e, b') := Load(e1, b, items[0].0, items[0].1, flags, exec);
      if e.None? {
        LoadAllSame(e1, e2, b', items[1..], flags, exec);
      }
    }
  }

  lemma {:induction false} ProcessSame(e1: Env, e2: Env, streaming: seq<Text>, b: Book, path: Text, flags: Flags,
                                       required: Text, exec: bool)
    requires Alike(e1, e2, flags) && Open(e1, path, exec) == Open(e2, path, exec)
    ensures Process(e1, streaming, b, path, flags, required, exec) == Process(e2, streaming, b, path, flags, required, exec)
    decreases Free(e1, streaming), 0, 0
  {
    var file := Open(e1, path, exec);
    if path !in streaming && file.Some? {
      FreeShrinks(e1, streaming, path, exec);
      TextSame(e1, e2, streaming + [path], b, file.value, 0, flags, required);
    }
  }

  lemma {:induction false} NestedSame(e1: Env, e2: Env, streaming: seq<Text>, b: Book, path: Text, flags: Flags,
                                      required: Text, exec: bool)
    requires Alike(e1, e2, flags) && Open(e1, path, exec) == Open(e2, path, exec)
    ensures Nested(e1, streaming, b, path, flags, required, exec) == Nested(e2, streaming, b, path, flags, required, exec)
    decreases Free(e1, streaming), 1, 0
  {
    ProcessSame(e1, e2, streaming, b, path, flags, required, exec);
  }

  lemma {:induction false} DirectorySame(e1: Env, e2: Env, streaming: seq<Text>, b: Book, dir: Text, names: seq<Text>,
                                         flags: Flags, required: Text)
    requires Alike(e1, e2, flags) && e1.files == e2.files
    ensures IncludeAll(e1, streaming, b, dir, names, flags, required) == IncludeAll(e2, streaming, b, dir, names, flags, required)
    decreases Free(e1, streaming), 2, |names|
  {
    if names != [] {
      var path := dir + [SLASH] + names[0];
      NestedSame(e1, e2, streaming, b, path, flags, required, false);
      var (e, b') := Nested(e1, streaming, b, path, flags, required, false);
      if e.None? {
        DirectorySame(e1, e2, streaming, b', dir, names[1..], flags, required);
      }
    }
  }

  /** The rights that matter for the files an include tag names are those it leaves them;
      those of the tag itself decide what it may name. */
  lemma {:induction false} FilesSame(e1: Env, e2: Env, streaming: seq<Text>, b: Book, items: Items, flags: Flags)
    requires Alike(e1, e2, Narrowed(flags, items, false)) && e1.files == e2.files && e1.dirs == e2.dirs
    requires Read(items, Ascii("file")).Some? || Read(items, Ascii("directory")).Some?
    ensures IncludeTag(e1, streaming, b, items, flags) == IncludeTag(e2, streaming, b, items, flags)
    decreases Free(e1, streaming), 3, 0
  {
    var must := Read(items, Ascii("must_have_tag"));
    var required := if must.Some? then must.value else [];
    var file, directory := Read(items, Ascii("file")), Read(items, Ascii("directory"));
    if file.Some? {
      NestedSame(e1, e2, streaming, b, e1.configPath(file.value), Narrowed(flags, items, false), required, false);
    } else {
      var dir := e1.configPath(directory.value);
      if dir in e1.dirs {
        DirectorySame(e1, e2, streaming, b, dir, e1.dirs[dir], Narrowed(flags, items, false), required);
      }
    }
  }

  lemma {:induction false} IncludeSame(e1: Env, e2: Env, streaming: seq<Text>, b: Book, items: Items, flags: Flags)
    requires Alike(e1, e2, flags)
    ensures IncludeTag(e1, streaming, b, items, flags) == IncludeTag(e2, streaming, b, items, flags)
    decreases Free(e1, streaming), 3, 1
  {
    var must := Read(items, Ascii("must_have_tag"));
    var required := if must.Some? then must.value else [];
    var program := Read(items, Ascii("executable"));
    AlikeNarrowed(e1, e2, flags, items, false);
    AlikeNarrowed(e1, e2, flags, items, true);
    if flags.noInclude {
    } else if Read(items, Ascii("file")).Some? || Read(items, Ascii("directory")).Some? {
      FilesSame(e1, e2, streaming, b, items, flags);
    } else if program.Some? && !flags.noExec {
      NestedSame(e1, e2, streaming, b, program.value, Narrowed(flags, items, true), required, true);
    }
  }

  lemma {:induction false} ActSame(e1: Env, e2: Env, streaming: seq<Text>, b: Book, name: Text, items: Items, flags: Flags)
    requires Alike(e1, e2, flags)
    ensures Act(e1, streaming, b, name, items, flags) == Act(e2, streaming, b, name, items, flags)
    decreases Free(e1, streaming), 4, 0
  {
    match KindOf(name)
    case Include => IncludeSame(e1, e2, streaming, b, items, flags);
    case Files => LoadAllSame(e1, e2, b, items, flags, false);
    case ExecFiles => LoadAllSame(e1, e2, b, items, flags, true);
    case _ =>
  }

  /** No tag gives the rest of its file a right. */
  lemma RightsKept(env: Env, streaming: seq<Text>, b: Book, name: Text, items: Items, flags: Flags)
    ensures Act(env, streaming, b, name, items, flags).flags.(compat := flags.compat) == flags
  {
  }

  lemma {:induction false} TagSame(e1: Env, e2: Env, streaming: seq<Text>, b: Book, t: Text, p: nat, flags: Flags, required: Text)
    requires Alike(e1, e2, flags) && p <= |t|
    ensures ParseTag(e1, streaming, b, t, p, flags, required) == ParseTag(e2, streaming, b, t, p, flags, required)
    ensures var r := ParseTag(e1, streaming, b, t, p, flags, required).0;
            r.Ok? ==> Alike(e1, e2, r.value.flags)
    decreases Free(e1, streaming), 6, 0
  {
    ContextsSame(e1, e2, b, flags);
    TagTextSame(ContextIn(e1, b, flags), ContextIn(e2, b, flags), t, p);
    match TagText(ContextIn(e1, b, flags), t, p)
    case Err(_) =>
    case Ok((name, items, next)) =>
      ActSame(e1, e2, streaming, b, name, items, flags);
      RightsKept(e1, streaming, b, name, items, flags);
  }

  lemma {:induction false} TextSame(e1: Env, e2: Env, streaming: seq<Text>, b: Book, t: Text, p: nat, flags: Flags, required: Text)
    requires Alike(e1, e2, flags) && p <= |t|
    ensures ParseText(e1, streaming, b, t, p, flags, required) == ParseText(e2, streaming, b, t, p, flags, required)
    decreases Free(e1, streaming), 7, |t| - p
  {
    if p == |t| {
    } else if t[p] == HASH {
      match Comment(t, p + 1)
      case Err(_) =>
      case Ok(next) => TextSame(e1, e2, streaming, b, t, next, flags, required);
    } else if t[p] == LT {
      TagSame(e1, e2, streaming, b, t, p + 1, flags, required);
      match ParseTag(e1, streaming, b, t, p + 1, flags, required)
      case (Err(_), _) =>
      case (Ok(end), b1) => TextSame(e1, e2, streaming, b1, t, end.next, end.flags, end.required);
    } else if t[p] in {32, CR, 9, LF} {
      TextSame(e1, e2, streaming, b, t, p + 1, flags, required);
    } else if t[p] in {0xFE, 0xFF} {
      TextSame(e1, e2, streaming, b.Report(NotUtf8), t, p + 1, flags, required);
    }
  }

  // ------------------------------------------------- the three rights

  /** A file without the right to execute depends on no program, whatever it includes. */
  lemma NoExecRunsNothing(env: Env, programs: map<Text, Text>, streaming: seq<Text>, b: Book, path: Text, flags: Flags, required: Text)
    requires flags.noExec
    ensures Process(env, streaming, b, path, flags, required, false)
         == Process(env.(programs := programs), streaming, b, path, flags, required, false)
  {
    ProcessSame(env, env.(programs := programs), streaming, b, path, flags, required, false);
  }

  /** A file, or the output of a program, without the right to include depends on nothing but
      its own text. */
  lemma NoIncludeReadsNothing(env: Env, other: Env, streaming: seq<Text>, b: Book, path: Text, flags: Flags,
                              required: Text, exec: bool)
    requires flags.noInclude && other == env.(files := other.files, dirs := other.dirs, programs := other.programs)
    requires Open(env, path, exec) == Open(other, path, exec)
    ensures Process(env, streaming, b, path, flags, required, exec) == Process(other, streaming, b, path, flags, required, exec)
  {
    ProcessSame(env, other, streaming, b, path, flags, required, exec);
  }

  /** A file without the right to the environment does not depend on it. */
  lemma NoEnvSeesNothing(env: Env, vars: map<Text, Text>, streaming: seq<Text>, b: Book, path: Text, flags: Flags,
                         required: Text, exec: bool)
    requires flags.noEnv
    ensures Process(env, streaming, b, path, flags, required, exec)
         == Process(env.(vars := vars), streaming, b, path, flags, required, exec)
  {
    ProcessSame(env, env.(vars := vars), streaming, b, path, flags, required, exec);
  }

  /** So a tag that includes files with noexec="yes" runs no program, even where its own file
      might. */
  lemma NoExecTagRunsNothing(env: Env, programs: map<Text, Text>, streaming: seq<Text>, b: Book, items: Items, flags: Flags)
    requires AsBool(items, Ascii("noexec"), false)
    requires Read(items, Ascii("file")).Some? || Read(items, Ascii("directory")).Some?
    ensures IncludeTag(env, streaming, b, items, flags) == IncludeTag(env.(programs := programs), streaming, b, items, flags)
  {
    FilesSame(env, env.(programs := programs), streaming, b, items, flags);
  }

  /** And the output of an included program can run no other, nor see the environment, unless
      the tag says so. */
  lemma ProgramRunsNothing(env: Env, other: Env, streaming: seq<Text>, b: Book, items: Items, flags: Flags)
    requires AsBool(items, Ascii("noexec"), true) && AsBool(items, Ascii("noenv"), true)
    requires Read(items, Ascii("file")).None? && Read(items, Ascii("directory")).None? && Read(items, Ascii("executable")).Some?
    requires other == env.(programs := other.programs, vars := other.vars)
    requires var path := Read(items, Ascii("executable")).value; Open(env, path, true) == Open(other, path, true)
    ensures IncludeTag(env, streaming, b, items, flags) == IncludeTag(other, streaming, b, items, flags)
  {
    var must := Read(items, Ascii("must_have_tag"));
    var required := if must.Some? then must.value else [];
    NestedSame(env, other, streaming, b, Read(items, Ascii("executable")).value, Narrowed(flags, items, true), required, true);
  }

  /** Where the right is missing, the tag is an error and nothing is read or run. */
  lemma ForbiddenExactly(env: Env, streaming: seq<Text>, b: Book, items: Items, flags: Flags)
    ensures var plain := Read(items, Ascii("file")).None? && Read(items, Ascii("directory")).None?;
            var (e, b') := IncludeTag(env, streaming, b, items, flags);
            && (flags.noInclude ==> e == Some(IncludeForbidden) && b' == b)
            && (!flags.noInclude && flags.noExec && plain && Read(items, Ascii("executable")).Some? ==>
                  e == Some(ExecForbidden) && b' == b)
  {
  }
}
