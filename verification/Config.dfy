/**
  The configuration parser: files of tags, some of which include other files.

  The functions give the meaning of a file, with the include stack as an argument that
  nothing can change; the classes below them are the parser with its mutable stack, its
  one character of push-back and its errors, proved to compute that meaning.
 */
module Config {
  import opened Wrappers
  import opened Bytes
  import opened Sequences
  import opened ConfigText
  import FlatMap

  /** The world of the parser: what each path and command yields, the `.conf` names of
      each directory in sorted order, the environment of the process, the order of names,
      and how names are taken relative to the configuration directory. */
  datatype Env = Env(
    files: map<Text, Text>, programs: map<Text, Text>, dirs: map<Text, seq<Text>>,
    vars: map<Text, Text>, o: KeyOrder, configPath: Text -> Text)

  datatype Tag = Tag(name: Text, items: Items)

  datatype Message = NotUtf8 | Failed(error: Error)

  /** What parsing produces. */
  datatype Book = Book(entities: Items, output: seq<Tag>, contents: map<Text, Text>, log: seq<Message>) {
    function Report(m: Message): Book {
      this.(log := log + [m])
    }
  }

  // ------------------------------------------------- reading the keys of a tag

  function LowerByte(c: Byte): Byte {
    if 65 <= c <= 90 then c + 32 else c
  }

  /** strcasecmp says that the strings are equal; each ends at its first NUL. */
  predicate SameWord(a: Text, b: Text) {
    var x: Byte, y: Byte := if a == [] then 0 else a[0], if b == [] then 0 else b[0];
    LowerByte(x) == LowerByte(y) && (x == 0 || SameWord(a[1..], b[1..]))
  }

  datatype Kind = Include | Files | ExecFiles | Define | Format | Plain

  function KindOf(name: Text): Kind {
    if SameWord(name, Ascii("include")) then Include
    else if SameWord(name, Ascii("files")) then Files
    else if SameWord(name, Ascii("execfiles")) then ExecFiles
    else if SameWord(name, Ascii("define")) then Define
    else if SameWord(name, Ascii("config")) then Format
    else Plain
  }

  /** The value of a key, which has to be spelled exactly so; line ends become blanks. */
  function Read(items: Items, key: Text): Option<Text> {
    if items == [] then None
    else if items[0].0 == key then Some(OneLine(items[0].1))
    else Read(items[1..], key)
  }

  function OneLine(s: Text): Text {
    seq(|s|, i requires 0 <= i < |s| => if s[i] == LF then 32 else s[i])
  }

  const UINT32_MAX: nat := 0xFFFF_FFFF

  function AsString(items: Items, key: Text): Text {
    match Read(items, key)
    case None => []
    case Some(v) => if |v| > UINT32_MAX then [] else v
  }

  function AsBool(items: Items, key: Text, default: bool): bool {
    match Read(items, key)
    case None => default
    case Some(v) =>
      if SameWord(v, Ascii("yes")) || SameWord(v, Ascii("true")) || SameWord(v, Ascii("on")) || v == Ascii("1") then true
      else if SameWord(v, Ascii("no")) || SameWord(v, Ascii("false")) || SameWord(v, Ascii("off")) || v == Ascii("0") then false
      else default
  }

  /** An include may take rights away from what it includes, never give any. */
  function Narrowed(flags: Flags, items: Items, default: bool): (r: Flags)
    ensures r.compat == flags.compat
    ensures (flags.noInclude ==> r.noInclude) && (flags.noExec ==> r.noExec) && (flags.noEnv ==> r.noEnv)
  {
    flags.(noInclude := flags.noInclude || AsBool(items, Ascii("noinclude"), false),
           noExec := flags.noExec || AsBool(items, Ascii("noexec"), default),
           noEnv := flags.noEnv || AsBool(items, Ascii("noenv"), default))
  }

  // ------------------------------------------------- the meaning of a file

  /** What the stack can look like: different paths, each of which was opened. */
  ghost predicate Nesting(env: Env, streaming: seq<Text>) {
    && NoDuplicates(streaming)
    && forall i :: 0 <= i < |streaming| ==> streaming[i] in env.files.Keys + env.programs.Keys
  }

  /** How many of the paths that can be opened are not on the include stack. */
  ghost function Free(env: Env, streaming: seq<Text>): nat {
    |env.files.Keys + env.programs.Keys - (set path | path in streaming)|
  }

  function Open(env: Env, path: Text, exec: bool): Option<Text> {
    if exec then (if path in env.programs then Some(env.programs[path]) else None)
    else (if path in env.files then Some(env.files[path]) else None)
  }

  /** Entering a file that can be opened and is not on the stack uses up one path. */
  lemma FreeShrinks(env: Env, streaming: seq<Text>, path: Text, exec: bool)
    requires path !in streaming && Open(env, path, exec).Some?
    ensures Free(env, streaming + [path]) < Free(env, streaming)
  {
    var all := env.files.Keys + env.programs.Keys;
    var on, on' := (set p | p in streaming), (set p | p in streaming + [path]);
    assert on' == on + {path};
    assert all - on' == (all - on) - {path};
  }

  lemma DeeperNesting(env: Env, streaming: seq<Text>, path: Text, exec: bool)
    requires Nesting(env, streaming) && path !in streaming && Open(env, path, exec).Some?
    ensures Nesting(env, streaming + [path])
  {
  }

  datatype Outcome = Outcome(error: Option<Error>, flags: Flags, book: Book)

  function Load(env: Env, b: Book, key: Text, name: Text, flags: Flags, exec: bool): (Option<Error>, Book) {
    if flags.noInclude then (Some(IncludeForbidden), b)
    else if exec && flags.noExec then (Some(ExecForbidden), b)
    else match Open(env, if exec then name else env.configPath(name), exec)
         case None => (Some(Unreadable(env.configPath(name))), b)
         case Some(text) => (None, b.(contents := b.contents[key := text]))
  }

  function LoadAll(env: Env, b: Book, items: Items, flags: Flags, exec: bool): (Option<Error>, Book)
    decreases |items|
  {
    if items == [] then (None, b)
    else var (e, b') := Load(env, b, items[0].0, items[0].1, flags, exec);
         if e.Some? then (e, b') else LoadAll(env, b', items[1..], flags, exec)
  }

  /** A file, entered with `streaming` on the include stack. */
  function Process(env: Env, streaming: seq<Text>, b: Book, path: Text, flags: Flags, required: Text, exec: bool)
    : (Result<bool, Error>, Book)
    decreases Free(env, streaming), 0, 0
  {
    if path in streaming then (Err(Looped(path)), b)
    else match Open(env, path, exec)
         case None => (Err(Unreadable(path)), b)
         case Some(text) =>
           FreeShrinks(env, streaming, path, exec);
           var (ok, b') := ParseText(env, streaming + [path], b, text, 0, flags, required);
           (Ok(ok), b')
  }

  const NO_FLAGS := Flags(false, false, false, false)

  /** Loading the configuration: a main file that cannot be read is an error like any other
      and is logged. */
  function Loaded(env: Env, b: Book, path: Text): (bool, Book) {
    match Process(env, [], b, path, NO_FLAGS, [], false)
    case (Ok(ok), b') => (ok, b')
    case (Err(e), b') => (false, b'.Report(Failed(e)))
  }

  /** Processing a file as part of an include: anything but success is an error there. */
  function Nested(env: Env, streaming: seq<Text>, b: Book, path: Text, flags: Flags, required: Text, exec: bool)
    : (Option<Error>, Book)
    decreases Free(env, streaming), 1, 0
  {
    match Process(env, streaming, b, path, flags, required, exec)
    case (Err(e), b') => (Some(e), b')
    case (Ok(false), b') => (Some(Included), b')
    case (Ok(true), b') => (None, b')
  }

  function IncludeAll(env: Env, streaming: seq<Text>, b: Book, dir: Text, names: seq<Text>, flags: Flags, required: Text)
    : (Option<Error>, Book)
    decreases Free(env, streaming), 2, |names|
  {
    if names == [] then (None, b)
    else var (e, b') := Nested(env, streaming, b, dir + [SLASH] + names[0], flags, required, false);
         if e.Some? then (e, b') else IncludeAll(env, streaming, b', dir, names[1..], flags, required)
  }

  function IncludeTag(env: Env, streaming: seq<Text>, b: Book, items: Items, flags: Flags): (Option<Error>, Book)
    decreases Free(env, streaming), 3, 0
  {
    var must := Read(items, Ascii("must_have_tag"));
    var required := if must.Some? then must.value else [];
    if flags.noInclude then (Some(IncludeForbidden), b)
    else if Read(items, Ascii("file")).Some? then
      Nested(env, streaming, b, env.configPath(Read(items, Ascii("file")).value),
               Narrowed(flags, items, false), required, false)
    else if Read(items, Ascii("directory")).Some? then
      var dir := env.configPath(Read(items, Ascii("directory")).value);
      if dir !in env.dirs then (Some(Unreadable(dir)), b)
      else IncludeAll(env, streaming, b, dir, env.dirs[dir], Narrowed(flags, items, false), required)
    else if Read(items, Ascii("executable")).Some? then
      if flags.noExec then (Some(ExecForbidden), b)
      else Nested(env, streaming, b, Read(items, Ascii("executable")).value, Narrowed(flags, items, true), required, true)
    else (None, b)
  }

  function DefineEntity(o: KeyOrder, b: Book, items: Items, flags: Flags): Outcome {
    var name, value := AsString(items, Ascii("name")), AsString(items, Ascii("value"));
    if flags.compat then Outcome(Some(DefineInCompat), flags, b)
    else if name == [] then Outcome(Some(DefineWithoutName), flags, b)
    else Outcome(None, flags, b.(entities := FlatMap.Assigned(o, b.entities, name, value)))
  }

  function SetFormat(items: Items, flags: Flags): (Option<Error>, Flags) {
    var format := AsString(items, Ascii("format"));
    if SameWord(format, Ascii("xml")) then (None, flags.(compat := false))
    else if SameWord(format, Ascii("compat")) then (None, flags.(compat := true))
    else if format != [] then (Some(UnknownFormat), flags)
    else (None, flags)
  }

  /** What a complete tag does. */
  function Act(env: Env, streaming: seq<Text>, b: Book, name: Text, items: Items, flags: Flags): Outcome
    decreases Free(env, streaming), 4, 0
  {
    match KindOf(name)
    case Include => var (e, b') := IncludeTag(env, streaming, b, items, flags); Outcome(e, flags, b')
    case Files => var (e, b') := LoadAll(env, b, items, flags, false); Outcome(e, flags, b')
    case ExecFiles => var (e, b') := LoadAll(env, b, items, flags, true); Outcome(e, flags, b')
    case Define => DefineEntity(env.o, b, items, flags)
    case Format => var (e, flags') := SetFormat(items, flags); Outcome(e, flags', b)
    case Plain => Outcome(None, flags, b.(output := b.output + [Tag(name, items)]))
  }

  datatype TagEnd = TagEnd(next: nat, flags: Flags, required: Text)

  function ContextIn(env: Env, b: Book, flags: Flags): Context {
    ContextOf(env.o, flags, b.entities, env.vars)
  }

  /** A tag that was read up to `next`. */
  function FinishTag(env: Env, streaming: seq<Text>, b: Book, name: Text, items: Items, flags: Flags,
                     required: Text, next: nat): (r: (Result<TagEnd, Error>, Book))
    ensures r.0.Ok? ==> r.0.value.next == next
    decreases Free(env, streaming), 5, 0
  {
    var o := Act(env, streaming, b, name, items, flags);
    (match o.error
     case Some(e) => Err(e)
     case None => Ok(TagEnd(next, o.flags, if name == required then [] else required)), o.book)
  }

  /** One tag, from behind its `<`. */
  function ParseTag(env: Env, streaming: seq<Text>, b: Book, t: Text, p: nat, flags: Flags, required: Text)
    : (r: (Result<TagEnd, Error>, Book))
    requires p <= |t|
    ensures r.0.Ok? ==> p < r.0.value.next <= |t|
    decreases Free(env, streaming), 6, 0
  {
    match TagText(ContextIn(env, b, flags), t, p)
    case Err(e) => (Err(e), b)
    case Ok((name, items, next)) => FinishTag(env, streaming, b, name, items, flags, required, next)
  }

  /** The rest of a file. Errors end the file and are logged. */
  function ParseText(env: Env, streaming: seq<Text>, b: Book, t: Text, p: nat, flags: Flags, required: Text): (bool, Book)
    requires p <= |t|
    decreases Free(env, streaming), 7, |t| - p
  {
    if p == |t| then
      if required != [] then (false, b.Report(Failed(RequiredTagMissing))) else (true, b)
    else if t[p] == HASH then
      match Comment(t, p + 1)
      case Err(e) => (false, b.Report(Failed(e)))
      case Ok(next) => ParseText(env, streaming, b, t, next, flags, required)
    else if t[p] == LT then
      match ParseTag(env, streaming, b, t, p + 1, flags, required)
      case (Err(e), b') => (false, b'.Report(Failed(e)))
      case (Ok(end), b') => ParseText(env, streaming, b', t, end.next, end.flags, end.required)
    else if t[p] in {32, CR, 9, LF} then ParseText(env, streaming, b, t, p + 1, flags, required)
    else if t[p] in {0xFE, 0xFF} then ParseText(env, streaming, b.Report(NotUtf8), t, p + 1, flags, required)
    else (false, b.Report(Failed(TagExpected)))
  }
}
