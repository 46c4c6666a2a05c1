/**
  The configuration parser itself: one object for the whole load, with the include
  stack, and one for each open file, with its position and one character of push-back.
 */
module ConfigParser {
  import opened Wrappers
  import opened Bytes
  import opened ConfigText
  import opened Config
  import FlatMap

  class ParseStack {
    const env: Env
    /** The paths of the files being read, outermost first. */
    var streaming: seq<Text>
    var entities: Items
    var output: seq<Tag>
    var contents: map<Text, Text>
    var log: seq<Message>

    constructor (world: Env)
      ensures env == world && streaming == [] && TheBook() == Book(Defaults(world.o), [], map[], [])
    {
      env, streaming, output, contents, log := world, [], [], map[], [];
      entities := Defaults(world.o);
    }

    function TheBook(): Book
      reads this
    {
      Book(entities, output, contents, log)
    }

    method Report(m: Message)
      modifies this
      ensures streaming == old(streaming) && TheBook() == old(TheBook()).Report(m)
    {
      log := log + [m];
    }

    method ProcessConfBuffer(path: Text, flags: Flags, required: Text, exec: bool) returns (r: Result<bool, Error>)
      requires Nesting(env, streaming)
      modifies this
      ensures streaming == old(streaming)
      ensures (r, TheBook()) == Process(env, streaming, old(TheBook()), path, flags, required, exec)
      decreases Free(env, streaming), 0, 0
    {
      if path in streaming {
        return Err(Looped(path));
      }
      var file := Open(env, path, exec);
      if file.None? {
        return Err(Unreadable(path));
      }
      FreeShrinks(env, streaming, path, exec);
      DeeperNesting(env, streaming, path, exec);
      streaming := streaming + [path];
      var p := new ConfFile(this, flags, file.value, required);
      var ok := p.OutTagParse();
      streaming := streaming[..|streaming| - 1];
      r := Ok(ok);
    }

    method NestedFile(path: Text, flags: Flags, required: Text, exec: bool) returns (e: Option<Error>)
      requires Nesting(env, streaming)
      modifies this
      ensures streaming == old(streaming)
      ensures (e, TheBook()) == Nested(env, streaming, old(TheBook()), path, flags, required, exec)
      decreases Free(env, streaming), 1, 0
    {
      var ok := ProcessConfBuffer(path, flags, required, exec);
      match ok
      case Err(error) => e := Some(error);
      case Ok(done) => e := if done then None else Some(Included);
    }

    method IncludeDirectory(dir: Text, names: seq<Text>, flags: Flags, required: Text) returns (e: Option<Error>)
      requires Nesting(env, streaming)
      modifies this
      ensures streaming == old(streaming)
      ensures (e, TheBook()) == IncludeAll(env, streaming, old(TheBook()), dir, names, flags, required)
      decreases Free(env, streaming), 2, |names|
    {
      var i := 0;
      while i < |names|
        invariant i <= |names| && streaming == old(streaming)
        invariant IncludeAll(env, streaming, old(TheBook()), dir, names, flags, required)
               == IncludeAll(env, streaming, TheBook(), dir, names[i..], flags, required)
      {
        e := NestedFile(dir + [SLASH] + names[i], flags, required, false);
        if e.Some? {
          return;
        }
        i := i + 1;
      }
      e := None;
    }

    method IncludeFile(items: Items, flags: Flags) returns (e: Option<Error>)
      requires Nesting(env, streaming)
      modifies this
      ensures streaming == old(streaming)
      ensures (e, TheBook()) == IncludeTag(env, streaming, old(TheBook()), items, flags)
      decreases Free(env, streaming), 3, 0
    {
      if flags.noInclude {
        return Some(IncludeForbidden);
      }
      var must := Read(items, Ascii("must_have_tag"));
      var required := if must.Some? then must.value else [];
      var name := Read(items, Ascii("file"));
      if name.Some? {
        e := NestedFile(env.configPath(name.value), Narrowed(flags, items, false), required, false);
        return;
      }
      name := Read(items, Ascii("directory"));
      if name.Some? {
        var dir := env.configPath(name.value);
        if dir !in env.dirs {
          return Some(Unreadable(dir));
        }
        e := IncludeDirectory(dir, env.dirs[dir], Narrowed(flags, items, false), required);
        return;
      }
      name := Read(items, Ascii("executable"));
      if name.Some? {
        if flags.noExec {
          return Some(ExecForbidden);
        }
        e := NestedFile(name.value, Narrowed(flags, items, true), required, true);
        return;
      }
      e := None;
    }

    method LoadFileToBuffer(key: Text, name: Text, flags: Flags, exec: bool) returns (e: Option<Error>)
      modifies this
      ensures streaming == old(streaming)
      ensures (e, TheBook()) == Load(env, old(TheBook()), key, name, flags, exec)
    {
      if flags.noInclude {
        return Some(IncludeForbidden);
      }
      if exec && flags.noExec {
        return Some(ExecForbidden);
      }
      var path := env.configPath(name);
      var file := Open(env, if exec then name else path, exec);
      if file.None? {
        return Some(Unreadable(path));
      }
      contents := contents[key := file.value];
      e := None;
    }

    method LoadFiles(items: Items, flags: Flags, exec: bool) returns (e: Option<Error>)
      modifies this
      ensures streaming == old(streaming)
      ensures (e, TheBook()) == LoadAll(env, old(TheBook()), items, flags, exec)
    {
      var i := 0;
      while i < |items|
        invariant i <= |items| && streaming == old(streaming)
        invariant LoadAll(env, old(TheBook()), items, flags, exec) == LoadAll(env, TheBook(), items[i..], flags, exec)
      {
        e := LoadFileToBuffer(items[i].0, items[i].1, flags, exec);
        if e.Some? {
          return;
        }
        i := i + 1;
      }
      e := None;
    }
  }

  const PREDEFINED: seq<FlatMap.Op<Text, Text>> := [
    FlatMap.Assign(Ascii("newline"), [LF]), FlatMap.Assign(Ascii("nl"), [LF]),
    FlatMap.Assign(Ascii("amp"), [AMP]), FlatMap.Assign(Ascii("apos"), [39]),
    FlatMap.Assign(Ascii("gt"), [GT]), FlatMap.Assign(Ascii("lt"), [LT]),
    FlatMap.Assign(Ascii("quot"), [QUOTE])]

  /** The entities known before any file is read. */
  function Defaults(o: KeyOrder): Items {
    FlatMap.Run(o, PREDEFINED)
  }

  const EOF := -1

  /** The number of the line in which position `p` is, counted from 1. */
  function LineAt(t: Text, p: nat): nat
    requires p <= |t|
  {
    if p == 0 then 1 else LineAt(t, p - 1) + if t[p - 1] == LF then 1 else 0
  }

  /** How many bytes of its line lie before position `p`; in the first line, one more. */
  function ColumnAt(t: Text, p: nat): nat
    requires p <= |t|
  {
    if p == 0 then 1 else if t[p - 1] == LF then 0 else ColumnAt(t, p - 1) + 1
  }

  /** `w` is the text from `start` to `p`. */
  ghost predicate Word(t: Text, start: nat, p: nat, w: Text) {
    start <= p <= |t| && w == t[start..p]
  }

  lemma NextWord(t: Text, p: nat)
    requires p <= |t|
    ensures var start := SkipSpace(t, p);
            var end := WordEnd(t, start);
            && ConfigText.IterNext(t, p) == (if end == |t| then Err(UnexpectedEof) else Ok((t[start..end], end)))
            && start <= end && Word(t, start, start, [])
  {
  }

  lemma WordGrows(t: Text, start: nat, p: nat, w: Text)
    requires p < |t| && WordChar(t[p]) && Word(t, start, p, w)
    ensures WordEnd(t, p) == WordEnd(t, p + 1) && Word(t, start, p + 1, w + [t[p]])
  {
  }

  lemma WordStops(t: Text, start: nat, p: nat, w: Text)
    requires p < |t| && !WordChar(t[p]) && Word(t, start, p, w)
    ensures WordEnd(t, p) == p && w == t[start..p]
  {
  }

  lemma WordAtEnd(t: Text, p: nat)
    requires p <= |t|
    ensures p == |t| ==> WordEnd(t, p) == p
  {
  }

  lemma AtTheEnd(env: Env, streaming: seq<Text>, b: Book, t: Text, flags: Flags, required: Text)
    ensures ParseText(env, streaming, b, t, |t|, flags, required)
         == if required != [] then (false, b.Report(Failed(RequiredTagMissing))) else (true, b)
  {
  }

  class ConfFile {
    const stack: ParseStack
    const file: Text
    var pos: nat
    /** Where reading stands, as error messages tell it. */
    var line: nat
    var column: nat
    /** The character that was put back, or EOF for none. */
    var ungot: int
    var flags: Flags
    var requiredTag: Text
    /** The keys of the tag being read. */
    var items: Items

    constructor (me: ParseStack, myFlags: Flags, conf: Text, mustHaveTag: Text)
      ensures Valid() && stack == me && file == conf && At() == 0
      ensures flags == myFlags && requiredTag == mustHaveTag
    {
      stack, file, pos, ungot, flags, requiredTag, items := me, conf, 0, EOF, myFlags, mustHaveTag, [];
      line, column := 1, 1;
    }

    /** A character that was put back is the one that was read last. The line counts the
        newlines that were read, the column the bytes since the last of them, beginning with
        one in the first line; looking for more at the end of the file counts as one more. */
    ghost predicate Valid()
      reads this
    {
      && pos <= |file| && (ungot == EOF || (pos > 0 && ungot == file[pos - 1]))
      && line == LineAt(file, pos)
      && if pos < |file| then column == ColumnAt(file, pos) else column >= ColumnAt(file, pos)
    }

    /** The position of the next character. */
    ghost function At(): nat
      requires Valid()
      reads this
    {
      if ungot == EOF then pos else pos - 1
    }

    ghost function TheContext(): Context
      reads this, stack
    {
      ContextIn(stack.env, stack.TheBook(), flags)
    }

    method Next(eofOk: bool) returns (ch: Result<int, Error>)
      requires Valid()
      modifies this`pos, this`line, this`column, this`ungot
      ensures Valid() && ungot == EOF
      ensures if old(At()) < |file| then ch == Ok(file[old(At())] as int) && At() == old(At()) + 1
              else ch == (if eofOk then Ok(EOF) else Err(UnexpectedEof)) && At() == old(At())
    {
      if ungot != EOF {
        ch := Ok(ungot);
        ungot := EOF;
        return;
      }
      if pos == |file| {
        if !eofOk {
          return Err(UnexpectedEof);
        }
        column := column + 1;
        return Ok(EOF);
      }
      ch := Ok(file[pos]);
      if file[pos] == LF {
        line := line + 1;
        column := 0;
      } else {
        column := column + 1;
      }
      pos := pos + 1;
    }

    method Unget(ch: int) returns (e: Option<Error>)
      modifies this`ungot
      ensures if old(ungot) != EOF then e == Some(UngetTwice) && ungot == old(ungot) else e == None && ungot == ch
    {
      if ungot != EOF {
        return Some(UngetTwice);
      }
      ungot := ch;
      e := None;
    }

    method ProcessComment() returns (e: Option<Error>)
      requires Valid()
      modifies this`pos, this`line, this`column, this`ungot
      ensures Valid() && (e == None ==> ungot == EOF)
      ensures match Comment(file, old(At()))
              case Err(error) => e == Some(error)
              case Ok(next) => e == None && At() == next
    {
      hide LineAt, ColumnAt;
      while true
        invariant Valid() && Comment(file, old(At())) == Comment(file, At())
        decreases |file| - At()
      {
        var ch := Next(false);
        if ch.Err? {
          return Some(ch.error);
        }
        if ch.value == LF as int {
          return None;
        }
      }
    }

    method ReadSpace() returns (ch: Result<int, Error>)
      requires Valid()
      modifies this`pos, this`line, this`column, this`ungot
      ensures Valid() && ungot == EOF
      ensures var q := SkipSpace(file, old(At()));
              if q < |file| then ch == Ok(file[q] as int) && At() == q + 1 else ch == Err(UnexpectedEof)
    {
      hide LineAt, ColumnAt;
      ch := Next(false);
      while ch.Ok? && IsSpace(ch.value)
        invariant Valid() && ungot == EOF
        invariant ch.Ok? ==> At() > 0 && ch.value == file[At() - 1] as int
        invariant ch.Ok? ==> SkipSpace(file, old(At())) == SkipSpace(file, At() - 1)
        invariant ch.Err? ==> ch.error == UnexpectedEof && SkipSpace(file, old(At())) == |file|
        decreases |file| - At(), ch.Ok?
      {
        ch := Next(false);
      }
    }

    /** The next word. The character behind it is read and put back. */
    method IterNext() returns (r: Result<Text, Error>)
      requires Valid()
      modifies this`pos, this`line, this`column, this`ungot
      ensures Valid()
      ensures match ConfigText.IterNext(file, old(At()))
              case Err(error) => r == Err(error)
              case Ok((word, next)) => r == Ok(word) && At() == next
    {
      hide LineAt, ColumnAt, WordEnd, SkipSpace, Word, ConfigText.IterNext;
      ghost var start := SkipSpace(file, At());
      ghost var end := WordEnd(file, start);
      NextWord(file, At());
      WordAtEnd(file, start);
      var rv: Text := [];
      var ch := ReadSpace();
      while ch.Ok? && WordChar(ch.value)
        invariant Valid() && ungot == EOF
        invariant ch.Ok? ==> start < At() && ch.value == file[At() - 1] as int
                             && WordEnd(file, At() - 1) == end && Word(file, start, At() - 1, rv)
        invariant ch.Err? ==> ch.error == UnexpectedEof && end == |file|
        decreases |file| - At(), ch.Ok?
      {
        WordGrows(file, start, At() - 1, rv);
        WordAtEnd(file, At());
        rv := rv + [ch.value];
        ch := Next(false);
      }
      if ch.Err? {
        return Err(ch.error);
      }
      WordStops(file, start, At() - 1, rv);
      var e := Unget(ch.value);
      match e
      case Some(error) => r := Err(error);
      case None => r := Ok(rv);
    }

    method ReadEntityName() returns (r: Result<Text, Error>)
      requires Valid()
      modifies this`pos, this`line, this`column, this`ungot
      ensures Valid() && (r.Ok? ==> ungot == EOF)
      ensures match EntityName(file, old(At()), [])
              case Err(error) => r == Err(error)
              case Ok((name, next)) => r == Ok(name) && At() == next
    {
      hide LineAt, ColumnAt;
      var name: Text := [];
      while true
        invariant Valid() && EntityName(file, old(At()), []) == EntityName(file, At(), name)
        decreases |file| - At()
      {
        var ch := Next(false);
        if ch.Err? {
          return Err(ch.error);
        }
        if WordChar(ch.value) || (name == [] && ch.value == HASH) {
          name := name + [ch.value];
        } else if ch.value == SEMICOLON {
          return Ok(name);
        } else {
          return Err(InvalidEntityName);
        }
      }
    }

    /** An entity, from behind its `&`. */
    method ReadEntity(ghost c: Context) returns (r: Result<Text, Error>)
      requires Valid() && c == TheContext()
      modifies this`pos, this`line, this`column, this`ungot
      ensures Valid() && (r.Ok? ==> ungot == EOF)
      ensures match EntityName(file, old(At()), [])
              case Err(error) => r == Err(error)
              case Ok((name, next)) =>
                At() == next && r == match c.expand(name) case Err(reason) => Err(Entity(reason)) case Ok(text) => Ok(text)
    {
      hide LineAt, ColumnAt;
      var name := ReadEntityName();
      if name.Err? {
        return Err(name.error);
      }
      var text := Expand(stack.env.o, stack.entities, stack.env.vars, flags.noEnv, name.value);
      r := if text.Err? then Err(Entity(text.error)) else Ok(text.value);
    }

    /** The character behind a backslash. */
    method ReadEscape() returns (r: Result<Byte, Error>)
      requires Valid() && ungot == EOF
      modifies this`pos, this`line, this`column, this`ungot
      ensures Valid() && r == EscapedAt(file, old(At()))
      ensures r.Ok? ==> At() == old(At()) + 1 && ungot == EOF
    {
      hide LineAt, ColumnAt;
      var esc := Next(false);
      if esc.Err? {
        return Err(esc.error);
      }
      if esc.value == 110 {
        r := Ok(LF);
      } else if IsAlpha(esc.value) {
        r := Err(UnknownEscape);
      } else {
        r := Ok(esc.value);
      }
    }

    /** One round of the loop over the characters of a value. */
    method ReadPiece(ghost c: Context) returns (r: Result<Option<Text>, Error>)
      requires Valid() && c == TheContext()
      modifies this`pos, this`line, this`column, this`ungot
      ensures Valid() && (r.Ok? ==> ungot == EOF)
      ensures match PieceAt(c, file, old(At()))
              case Err(error) => r == Err(error)
              case Ok(Done(next)) => r == Ok(None) && At() == next
              case Ok(More(text, next)) => r == Ok(Some(text)) && At() == next
    {
      hide LineAt, ColumnAt;
      var ch := Next(false);
      if ch.Err? {
        return Err(ch.error);
      }
      if ch.value == AMP && !flags.compat {
        var text := ReadEntity(c);
        r := if text.Err? then Err(text.error) else Ok(Some(text.value));
      } else if ch.value == BACKSLASH && flags.compat {
        var esc := ReadEscape();
        r := if esc.Err? then Err(esc.error) else Ok(Some([esc.value]));
      } else if ch.value == QUOTE {
        r := Ok(None);
      } else {
        r := Ok(Some(if ch.value != CR then [ch.value] else []));
      }
    }

    method ReadValue(ghost c: Context) returns (r: Result<Text, Error>)
      requires Valid() && c == TheContext()
      modifies this`pos, this`line, this`column, this`ungot
      ensures Valid() && (r.Ok? ==> ungot == EOF)
      ensures match ValueAt(c, file, old(At()), [])
              case Err(error) => r == Err(error)
              case Ok((value, next)) => r == Ok(value) && At() == next
    {
      hide LineAt, ColumnAt;
      var value: Text := [];
      while true
        invariant Valid() && ValueAt(c, file, old(At()), []) == ValueAt(c, file, At(), value)
        decreases |file| - At()
      {
        var piece := ReadPiece(c);
        if piece.Err? {
          return Err(piece.error);
        }
        if piece.value.None? {
          return Ok(value);
        }
        value := value + piece.value.value;
      }
    }

    method ReadQuoted(ghost c: Context) returns (r: Result<Text, Error>)
      requires Valid() && c == TheContext()
      modifies this`pos, this`line, this`column, this`ungot
      ensures Valid() && (r.Ok? ==> ungot == EOF)
      ensures match QuotedAt(c, file, old(At()))
              case Err(error) => r == Err(error)
              case Ok((value, next)) => r == Ok(value) && At() == next
    {
      hide LineAt, ColumnAt;
      var ch := Next(false);
      if ch.Err? {
        return Err(ch.error);
      }
      if ch.value != QUOTE {
        return Err(InvalidValue);
      }
      r := ReadValue(c);
    }

    /** The text of one key, or of a comment, or the end of the tag. */
    method ReadKey(ghost c: Context) returns (r: Result<ConfigText.Kv, Error>)
      requires Valid() && c == TheContext()
      modifies this`pos, this`line, this`column, this`ungot
      ensures Valid() && r == KeyValue(c, file, old(At()))
      ensures r.Ok? ==> At() == r.value.next
    {
      hide LineAt, ColumnAt;
      var key := IterNext();
      if key.Err? {
        return Err(key.error);
      }
      var ch := Next(false);
      match ch
      case Err(error) => return Err(error);
      case Ok(next) =>
        if next == GT as int && key.value == [] {
          return Ok(End(pos));
        } else if next == HASH as int && key.value == [] {
          var e := ProcessComment();
          return if e.Some? then Err(e.value) else Ok(Skip(pos));
        } else if next != EQUALS as int {
          return Err(InvalidKey);
        }
        var value := ReadQuoted(c);
        if value.Err? {
          return Err(value.error);
        }
        r := Ok(Item(key.value, value.value, pos));
    }

    method Store(key: Text, value: Text) returns (ok: bool)
      modifies this`items
      ensures match AddKey(stack.env.o, old(items), key, value)
              case None => !ok && items == old(items)
              case Some(all) => ok && items == all
    {
      hide LineAt, ColumnAt;
      var all := AddKey(stack.env.o, items, key, value);
      ok := all.Some?;
      if ok {
        items := all.value;
      }
    }

    /** One key of the tag being read; false at the end of the tag. */
    method Kv(ghost c: Context) returns (r: Result<bool, Error>)
      requires Valid() && c == TheContext()
      modifies this`pos, this`line, this`column, this`ungot, this`items
      ensures Valid()
      ensures match KeyValue(c, file, old(At()))
              case Err(error) => r == Err(error)
              case Ok(End(next)) => r == Ok(false) && At() == next && items == old(items)
              case Ok(Skip(next)) => r == Ok(true) && At() == next && items == old(items)
              case Ok(Item(key, value, next)) =>
                match c.add(old(items), key, value)
                case None => r == Err(KeyTwice)
                case Some(all) => r == Ok(true) && At() == next && items == all
    {
      hide LineAt, ColumnAt;
      var line := ReadKey(c);
      match line
      case Err(error) => r := Err(error);
      case Ok(End(_)) => r := Ok(false);
      case Ok(Skip(_)) => r := Ok(true);
      case Ok(Item(key, value, _)) =>
        var ok := Store(key, value);
        r := if ok then Ok(true) else Err(KeyTwice);
    }

    /** All keys of a tag. */
    method ReadKeys(ghost c: Context) returns (e: Option<Error>)
      requires Valid() && c == TheContext()
      modifies this`pos, this`line, this`column, this`ungot, this`items
      ensures Valid()
      ensures match KeyValues(c, file, old(At()), old(items))
              case Err(error) => e == Some(error)
              case Ok((all, next)) => e == None && At() == next && items == all
    {
      hide LineAt, ColumnAt;
      var more := true;
      while more
        invariant Valid()
        invariant more ==> KeyValues(c, file, old(At()), old(items)) == KeyValues(c, file, At(), items)
        invariant !more ==> KeyValues(c, file, old(At()), old(items)) == Ok((items, At()))
        decreases |file| - At(), more
      {
        var r := Kv(c);
        if r.Err? {
          return Some(r.error);
        }
        more := r.value;
      }
      e := None;
    }

    /** The name of a tag, up to its first key. */
    method ReadHead() returns (r: Result<Text, Error>)
      requires Valid()
      modifies this`pos, this`line, this`column, this`ungot
      ensures Valid()
      ensures match TagHead(file, old(At()))
              case Err(error) => r == Err(error)
              case Ok((name, next)) => r == Ok(name) && At() == next
    {
      hide LineAt, ColumnAt;
      r := IterNext();
      if r.Err? {
        return;
      }
      var spc := Next(false);
      match spc
      case Err(error) => return Err(error);
      case Ok(next) =>
        if next == GT as int {
          var e := Unget(next);
          match e
          case Some(error) => return Err(error);
          case None =>
        } else if !IsSpace(next) {
          return Err(InvalidTagChar);
        }
        if r.value == [] {
          return Err(EmptyTagName);
        }
    }

    /** The text of a tag. */
    method ReadTag(ghost c: Context) returns (r: Result<Text, Error>)
      requires Valid() && c == TheContext()
      modifies this`pos, this`line, this`column, this`ungot, this`items
      ensures Valid()
      ensures match TagText(c, file, old(At()))
              case Err(error) => r == Err(error)
              case Ok((name, all, next)) => r == Ok(name) && At() == next && items == all
    {
      hide LineAt, ColumnAt, TagHead, KeyValues, ContextIn;
      r := ReadHead();
      if r.Err? {
        return;
      }
      items := [];
      var e := ReadKeys(c);
      if e.Some? {
        r := Err(e.value);
      }
    }

    /** What a complete tag does. */
    method Perform(name: Text) returns (e: Option<Error>)
      requires Valid() && Nesting(stack.env, stack.streaming)
      modifies stack, this`flags
      ensures stack.streaming == old(stack.streaming)
      ensures Outcome(e, flags, stack.TheBook())
           == Act(stack.env, stack.streaming, old(stack.TheBook()), name, items, old(flags))
      decreases Free(stack.env, stack.streaming), 4, 0
    {
      hide LineAt, ColumnAt;
      e := None;
      match KindOf(name) {
        case Include => e := stack.IncludeFile(items, flags);
        case Files => e := stack.LoadFiles(items, flags, false);
        case ExecFiles => e := stack.LoadFiles(items, flags, true);
        case Define =>
          var key, value := AsString(items, Ascii("name")), AsString(items, Ascii("value"));
          if flags.compat {
            e := Some(DefineInCompat);
          } else if key == [] {
            e := Some(DefineWithoutName);
          } else {
            stack.entities := FlatMap.Assigned(stack.env.o, stack.entities, key, value);
          }
        case Format =>
          var format := AsString(items, Ascii("format"));
          if SameWord(format, Ascii("xml")) {
            flags := flags.(compat := false);
          } else if SameWord(format, Ascii("compat")) {
            flags := flags.(compat := true);
          } else if format != [] {
            e := Some(UnknownFormat);
          }
        case Plain => stack.output := stack.output + [Tag(name, items)];
      }
    }

    /** A tag whose text was read. */
    method FinishTag(name: Text) returns (e: Option<Error>)
      requires Valid() && Nesting(stack.env, stack.streaming)
      modifies stack, this`flags, this`requiredTag
      ensures stack.streaming == old(stack.streaming)
      ensures var (r, book) := Config.FinishTag(stack.env, stack.streaming, old(stack.TheBook()), name, items, old(flags),
                                                old(requiredTag), At());
              && stack.TheBook() == book
              && match r
                 case Err(error) => e == Some(error)
                 case Ok(end) => e == None && flags == end.flags && requiredTag == end.required
      decreases Free(stack.env, stack.streaming), 5, 0
    {
      hide LineAt, ColumnAt;
      if name == requiredTag {
        requiredTag := [];
      }
      e := Perform(name);
    }

    /** One tag, from behind its `<`. */
    method RealParse() returns (e: Option<Error>)
      requires Valid() && Nesting(stack.env, stack.streaming)
      modifies this, stack
      ensures Valid() && stack.streaming == old(stack.streaming)
      ensures var (r, book) := ParseTag(stack.env, stack.streaming, old(stack.TheBook()), file, old(At()), old(flags), old(requiredTag));
              && stack.TheBook() == book
              && match r
                 case Err(error) => e == Some(error)
                 case Ok(end) => e == None && At() == end.next && flags == end.flags && requiredTag == end.required
      decreases Free(stack.env, stack.streaming), 6, 0
    {
      hide LineAt, ColumnAt;
      var name := ReadTag(TheContext());
      if name.Err? {
        return Some(name.error);
      }
      e := FinishTag(name.value);
    }

    /** What `ch`, which was just read outside of any tag, begins. */
    method OutItem(ch: int) returns (e: Option<Error>)
      requires Valid() && Nesting(stack.env, stack.streaming)
      requires ungot == EOF && At() > 0 && ch == file[At() - 1] as int
      modifies this, stack
      ensures Valid() && stack.streaming == old(stack.streaming) && (e.None? ==> At() >= old(At()))
      ensures ParseText(stack.env, stack.streaming, old(stack.TheBook()), file, old(At()) - 1, old(flags), old(requiredTag))
           == if e.Some? then (false, stack.TheBook().Report(Failed(e.value)))
              else ParseText(stack.env, stack.streaming, stack.TheBook(), file, At(), flags, requiredTag)
      decreases Free(stack.env, stack.streaming), 6, 1
    {
      hide LineAt, ColumnAt;
      e := None;
      if ch == HASH as int {
        e := ProcessComment();
      } else if ch == LT as int {
        e := RealParse();
      } else if ch == 0xFE || ch == 0xFF {
        stack.Report(NotUtf8);
      } else if ch !in {32, 13, 9, 10} {
        e := Some(TagExpected);
      }
    }

    /** The whole file. What the throwing code above reports ends the file and is logged. */
    method OutTagParse() returns (ok: bool)
      requires Valid() && Nesting(stack.env, stack.streaming)
      modifies this, stack
      ensures stack.streaming == old(stack.streaming)
      ensures (ok, stack.TheBook())
           == ParseText(stack.env, stack.streaming, old(stack.TheBook()), file, old(At()), old(flags), old(requiredTag))
      decreases Free(stack.env, stack.streaming), 7, 0
    {
      hide LineAt, ColumnAt, ParseText;
      while true
        invariant Valid() && stack.streaming == old(stack.streaming)
        invariant ParseText(stack.env, stack.streaming, old(stack.TheBook()), file, old(At()), old(flags), old(requiredTag))
               == ParseText(stack.env, stack.streaming, stack.TheBook(), file, At(), flags, requiredTag)
        decreases |file| - At()
      {
        var e := None;
        var ch := Next(true);
        if ch == Ok(EOF) {
          AtTheEnd(stack.env, stack.streaming, stack.TheBook(), file, flags, requiredTag);
          if requiredTag == [] {
            return true;
          }
          e := Some(RequiredTagMissing);
        } else {
          e := OutItem(ch.value);
        }
        if e.Some? {
          stack.Report(Failed(e.value));
          return false;
        }
      }
    }
  }

  /** Configuration::Load: whatever is thrown is caught and logged. */
  method LoadConfiguration(world: Env, path: Text) returns (ready: bool, stack: ParseStack)
    ensures fresh(stack) && stack.streaming == []
    ensures (ready, stack.TheBook()) == Loaded(world, Book(Defaults(world.o), [], map[], []), path)
  {
    stack := new ParseStack(world);
    var r := stack.ProcessConfBuffer(path, NO_FLAGS, [], false);
    match r
    case Ok(ok) => ready := ok;
    case Err(e) =>
      ready := false;
      stack.Report(Failed(e));
  }
}
