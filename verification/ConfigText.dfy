/**
  The text level of the configuration format: words, comments, quoted values with
  their entities, the keys of one tag, and the escaping that a value needs.

  Positions run over the bytes of one file; every function answers from `p` on.
 */
module ConfigText {
  import opened Wrappers
  import opened Bytes
  import opened Sequences
  import FlatMap

  datatype Error =
    | UnexpectedEof | UngetTwice
    | InvalidTagChar | EmptyTagName | InvalidKey | InvalidValue | KeyTwice
    | InvalidEntityName | Entity(reason: EntityError) | UnknownEscape
    | TagExpected | RequiredTagMissing
    | IncludeForbidden | ExecForbidden | Unreadable(path: Text) | Looped(path: Text) | Included
    | DefineInCompat | DefineWithoutName | UnknownFormat

  datatype EntityError =
    EmptyEntity | EmptyNumeric | InvalidNumeric | UnknownEntity | EnvForbidden | EnvMissing

  datatype Flags = Flags(compat: bool, noExec: bool, noInclude: bool, noEnv: bool)

  /** What a file_config_items holds: pairs under the case-insensitive order. */
  type Items = seq<(Text, Text)>

  /** The order of the containers; `FlatMap.Insensitive` of the case map in use. */
  type KeyOrder = FlatMap.Order<(Text, Text), Text, Text>

  /** What the meaning of a tag depends on: the format of the file, what each entity name
      stands for, and how a key joins the keys before it, if it may. */
  datatype Context = Context(
    compat: bool, expand: Text -> Result<Text, EntityError>, add: (Items, Text, Text) -> Option<Items>)

  /** The bytes of an ASCII literal. */
  function Ascii(s: string): (r: Text)
    ensures |r| == |s|
  {
    seq(|s|, i requires 0 <= i < |s| => if s[i] < '\U{0080}' then s[i] as int else 63)
  }

  const LF: Byte := 10
  const CR: Byte := 13
  const QUOTE: Byte := 34
  const HASH: Byte := 35
  const AMP: Byte := 38
  const MINUS: Byte := 45
  const SEMICOLON: Byte := 59
  const LT: Byte := 60
  const EQUALS: Byte := 61
  const GT: Byte := 62
  const BACKSLASH: Byte := 92

  predicate IsDigit(c: Byte) { 48 <= c <= 57 }
  predicate IsAlpha(c: Byte) { 65 <= c <= 90 || 97 <= c <= 122 }

  predicate WordChar(c: Byte) { IsAlpha(c) || IsDigit(c) || c == 45 || c == 46 || c == 95 }

  // ------------------------------------------------- words and comments

  function SkipSpace(t: Text, p: nat): (q: nat)
    requires p <= |t|
    ensures p <= q <= |t| && (q < |t| ==> !IsSpace(t[q]))
    decreases |t| - p
  {
    if p < |t| && IsSpace(t[p]) then SkipSpace(t, p + 1) else p
  }

  function WordEnd(t: Text, p: nat): (q: nat)
    requires p <= |t|
    ensures p <= q <= |t| && (q < |t| ==> !WordChar(t[q]))
    decreases |t| - p
  {
    if p < |t| && WordChar(t[p]) then WordEnd(t, p + 1) else p
  }

  /** The next word, possibly empty, and the position behind it. The byte there has to
      exist, because it is read and put back. */
  function IterNext(t: Text, p: nat): (r: Result<(Text, nat), Error>)
    requires p <= |t|
    ensures r.Ok? ==> p <= r.value.1 < |t|
    ensures r.Err? ==> r.error == UnexpectedEof
  {
    var a := SkipSpace(t, p);
    var b := WordEnd(t, a);
    if b == |t| then Err(UnexpectedEof) else Ok((t[a..b], b))
  }

  /** The position behind the end of the line. */
  function Comment(t: Text, p: nat): (r: Result<nat, Error>)
    requires p <= |t|
    ensures r.Ok? ==> p < r.value <= |t|
    ensures r.Err? ==> r.error != UngetTwice
    decreases |t| - p
  {
    if p == |t| then Err(UnexpectedEof)
    else if t[p] == LF then Ok(p + 1)
    else Comment(t, p + 1)
  }

  // ------------------------------------------------- numeric references

  const ULONG: nat := 0x1_0000_0000_0000_0000

  function DigitValue(c: Byte): nat {
    if IsDigit(c) then c - 48 else if 65 <= c <= 90 then c - 55 else if 97 <= c <= 122 then c - 87 else 99
  }

  function Digits(s: Text, base: nat): Option<nat> {
    if s == [] then Some(0)
    else var rest := Digits(s[..|s| - 1], base);
         var d := DigitValue(s[|s| - 1]);
         if rest.Some? && d < base then Some(rest.value * base + d) else None
  }

  /** strtoul on a whole string; None if it does not consume all of it. A minus sign
      negates in 64-bit arithmetic, hexadecimal digits may follow a `0x`, and a
      number that is too big gives the biggest one. */
  function StrToUl(s: Text, base: nat): Option<nat> {
    var minus := s != [] && s[0] == MINUS;
    var u := if minus then s[1..] else s;
    var body := if base == 16 && |u| > 2 && u[0] == 48 && (u[1] == 120 || u[1] == 88) then u[2..] else u;
    if body == [] then None
    else match Digits(body, base)
         case None => None
         case Some(v) => Some(if v >= ULONG then ULONG - 1 else if minus then (ULONG - v) % ULONG else v)
  }

  // ------------------------------------------------- entities

  /** The name between `&` and `;`. */
  function EntityName(t: Text, p: nat, name: Text): (r: Result<(Text, nat), Error>)
    requires p <= |t|
    ensures r.Ok? ==> p < r.value.1 <= |t|
    ensures r.Err? ==> r.error != UngetTwice
    decreases |t| - p
  {
    if p == |t| then Err(UnexpectedEof)
    else if WordChar(t[p]) || (name == [] && t[p] == HASH) then EntityName(t, p + 1, name + [t[p]])
    else if t[p] == SEMICOLON then Ok((name, p + 1))
    else Err(InvalidEntityName)
  }

  /** What an entity stands for, given the entities defined so far and the environment
      of the process. */
  function Expand(o: KeyOrder, entities: Items, vars: map<Text, Text>, noEnv: bool, name: Text)
    : Result<Text, EntityError>
  {
    if name == [] then Err(EmptyEntity)
    else if name[0] == HASH then
      if |name| == 1 || (|name| == 2 && name[1] == 120) then Err(EmptyNumeric)
      else match (if name[1] == 120 then StrToUl(name[2..], 16) else StrToUl(name[1..], 10))
           case None => Err(InvalidNumeric)
           case Some(v) => if v > 255 then Err(InvalidNumeric) else Ok([v])
    else if Ascii("env.") <= name then
      if noEnv then Err(EnvForbidden)
      else if name[4..] in vars then Ok(vars[name[4..]])
      else Err(EnvMissing)
    else match FlatMap.Find(o, entities, name)
         case None => Err(UnknownEntity)
         case Some(i) => Ok(entities[i].1)
  }

  /** A key may come only once, whatever its case. */
  function AddKey(o: KeyOrder, items: Items, key: Text, value: Text): Option<Items> {
    if FlatMap.Find(o, items, key).Some? then None else Some(FlatMap.Assigned(o, items, key, value))
  }

  function ContextOf(o: KeyOrder, flags: Flags, entities: Items, vars: map<Text, Text>): (c: Context)
    ensures c.compat == flags.compat
    ensures forall name :: c.expand(name) == Expand(o, entities, vars, flags.noEnv, name)
    ensures forall items, key, value :: c.add(items, key, value) == AddKey(o, items, key, value)
  {
    Context(flags.compat, name => Expand(o, entities, vars, flags.noEnv, name),
            (items, key, value) => AddKey(o, items, key, value))
  }

  // ------------------------------------------------- values

  /** What one piece of a quoted value adds: the end, or some text and the position behind. */
  datatype Piece = Done(next: nat) | More(text: Text, next: nat)

  /** The character behind a backslash, in the old format. */
  function EscapedAt(t: Text, p: nat): (r: Result<Byte, Error>)
    requires p <= |t|
    ensures r.Ok? ==> p < |t|
    ensures r.Err? ==> r.error != UngetTwice
  {
    if p == |t| then Err(UnexpectedEof)
    else if t[p] == 110 then Ok(LF)
    else if IsAlpha(t[p]) then Err(UnknownEscape)
    else Ok(t[p])
  }

  function PieceAt(c: Context, t: Text, p: nat): (r: Result<Piece, Error>)
    requires p <= |t|
    ensures r.Ok? ==> p < r.value.next <= |t|
    ensures r.Err? ==> r.error != UngetTwice
  {
    if p == |t| then Err(UnexpectedEof)
    else if t[p] == AMP && !c.compat then
      match EntityName(t, p + 1, [])
      case Err(e) => Err(e)
      case Ok((name, next)) =>
        (match c.expand(name)
         case Err(e) => Err(Entity(e))
         case Ok(text) => Ok(More(text, next)))
    else if t[p] == BACKSLASH && c.compat then
      (match EscapedAt(t, p + 1)
       case Err(e) => Err(e)
       case Ok(b) => Ok(More([b], p + 2)))
    else if t[p] == QUOTE then Ok(Done(p + 1))
    else if t[p] != CR then Ok(More([t[p]], p + 1))
    else Ok(More([], p + 1))
  }

  /** The value up to its closing quote, `value` being what was read so far. */
  function ValueAt(c: Context, t: Text, p: nat, value: Text): (r: Result<(Text, nat), Error>)
    requires p <= |t|
    ensures r.Ok? ==> p < r.value.1 <= |t|
    ensures r.Err? ==> r.error != UngetTwice
    decreases |t| - p
  {
    match PieceAt(c, t, p)
    case Err(e) => Err(e)
    case Ok(Done(next)) => Ok((value, next))
    case Ok(More(text, next)) => ValueAt(c, t, next, value + text)
  }

  /** A value with its opening quote. */
  function QuotedAt(c: Context, t: Text, p: nat): (r: Result<(Text, nat), Error>)
    requires p <= |t|
    ensures r.Ok? ==> p < r.value.1 <= |t|
    ensures r.Err? ==> r.error != UngetTwice
  {
    if p == |t| then Err(UnexpectedEof)
    else if t[p] != QUOTE then Err(InvalidValue)
    else ValueAt(c, t, p + 1, [])
  }

  // ------------------------------------------------- the keys of a tag

  datatype Kv = End(next: nat) | Skip(next: nat) | Item(key: Text, value: Text, next: nat)

  function KeyValue(c: Context, t: Text, p: nat): (r: Result<Kv, Error>)
    requires p <= |t|
    ensures r.Ok? ==> p < r.value.next <= |t|
    ensures r.Err? ==> r.error != UngetTwice
  {
    match IterNext(t, p)
    case Err(e) => Err(e)
    case Ok((key, q)) =>
      if t[q] == GT && key == [] then Ok(End(q + 1))
      else if t[q] == HASH && key == [] then
        (match Comment(t, q + 1)
         case Err(e) => Err(e)
         case Ok(next) => Ok(Skip(next)))
      else if t[q] != EQUALS then Err(InvalidKey)
      else (match QuotedAt(c, t, q + 1)
            case Err(e) => Err(e)
            case Ok((value, next)) => Ok(Item(key, value, next)))
  }

  /** All keys up to the closing `>`. */
  function KeyValues(c: Context, t: Text, p: nat, items: Items): (r: Result<(Items, nat), Error>)
    requires p <= |t|
    ensures r.Ok? ==> p < r.value.1 <= |t|
    ensures r.Err? ==> r.error != UngetTwice
    decreases |t| - p
  {
    match KeyValue(c, t, p)
    case Err(e) => Err(e)
    case Ok(End(next)) => Ok((items, next))
    case Ok(Skip(next)) => KeyValues(c, t, next, items)
    case Ok(Item(key, value, next)) =>
      match c.add(items, key, value)
      case None => Err(KeyTwice)
      case Some(all) => KeyValues(c, t, next, all)
  }

  /** The name of a tag and the position of its first key. */
  function TagHead(t: Text, p: nat): (r: Result<(Text, nat), Error>)
    requires p <= |t|
    ensures r.Ok? ==> p <= r.value.1 <= |t| && r.value.0 != []
    ensures r.Err? ==> r.error != UngetTwice
  {
    match IterNext(t, p)
    case Err(e) => Err(e)
    case Ok((name, q)) =>
      if t[q] != GT && !IsSpace(t[q]) then Err(InvalidTagChar)
      else if name == [] then Err(EmptyTagName)
      else Ok((name, if t[q] == GT then q else q + 1))
  }

  /** The text of a tag: its name, its keys and the position behind its `>`. */
  function TagText(c: Context, t: Text, p: nat): (r: Result<(Text, Items, nat), Error>)
    requires p <= |t|
    ensures r.Ok? ==> p < r.value.2 <= |t|
    ensures r.Err? ==> r.error != UngetTwice
  {
    match TagHead(t, p)
    case Err(e) => Err(e)
    case Ok((name, q)) =>
      match KeyValues(c, t, q, [])
      case Err(e) => Err(e)
      case Ok((items, next)) => Ok((name, items, next))
  }

  // ------------------------------------------------- escaping

  function EscapeByte(c: Byte, xml: bool): Text {
    if c == QUOTE then (if xml then [38, 113, 117, 111, 116, 59] else [QUOTE])
    else if c == AMP then (if xml then [38, 97, 109, 112, 59] else [AMP])
    else if c == BACKSLASH then (if xml then [BACKSLASH] else [BACKSLASH, BACKSLASH])
    else [c]
  }

  /** The escapes of the first `k` bytes. */
  function Escaped(s: Text, xml: bool, k: nat): Text
    requires k <= |s|
  {
    if k == 0 then [] else Escaped(s, xml, k - 1) + EscapeByte(s[k - 1], xml)
  }

  method Escape(str: Text, xml: bool) returns (escaped: Text)
    ensures escaped == Escaped(str, xml, |str|)
  {
    escaped := [];
    for it := 0 to |str|
      invariant escaped == Escaped(str, xml, it)
    {
      match str[it] {
        case 34 => escaped := escaped + (if xml then [38, 113, 117, 111, 116, 59] else [QUOTE]);
        case 38 => escaped := escaped + (if xml then [38, 97, 109, 112, 59] else [AMP]);
        case 92 => escaped := escaped + (if xml then [BACKSLASH] else [BACKSLASH, BACKSLASH]);
        case _ => escaped := escaped + [str[it]];
      }
    }
  }

  /** The entities that escaped text refers to have their default meaning. */
  ghost predicate Predefined(c: Context) {
    && c.expand([97, 109, 112]) == Ok([AMP])
    && c.expand([113, 117, 111, 116]) == Ok([QUOTE])
  }

  function KeptByte(b: Byte): Text {
    if b == CR then [] else [b]
  }

  /** The first `k` bytes without the carriage returns among them. */
  function WithoutCr(s: Text, k: nat): Text
    requires k <= |s|
  {
    if k == 0 then [] else WithoutCr(s, k - 1) + KeptByte(s[k - 1])
  }

  // ------------------------------------------------- text at a position

  ghost predicate Has(t: Text, p: nat, e: Text) {
    p + |e| <= |t| && t[p..p + |e|] == e
  }

  lemma HasAt(t: Text, p: nat, e: Text, i: nat)
    requires Has(t, p, e) && i < |e|
    ensures t[p + i] == e[i]
  {
    assert t[p..p + |e|][i] == e[i];
  }

  lemma HasParts(t: Text, p: nat, a: Text, b: Text)
    requires Has(t, p, a + b)
    ensures Has(t, p, a) && Has(t, p + |a|, b)
  {
    assert t[p..p + |a|] == t[p..p + |a + b|][..|a|] == (a + b)[..|a|] == a;
    assert t[p + |a|..p + |a| + |b|] == t[p..p + |a + b|][|a|..] == (a + b)[|a|..] == b;
  }

  /** The first `n` parts, one behind the other. */
  function Joined(parts: seq<Text>, n: nat): Text
    requires n <= |parts|
  {
    if n == 0 then [] else Joined(parts, n - 1) + parts[n - 1]
  }

  ghost predicate Laid(t: Text, parts: seq<Text>, at: seq<nat>) {
    && |at| == |parts| + 1
    && forall i {:trigger parts[i]} :: 0 <= i < |parts| ==> Has(t, at[i], parts[i]) && at[i + 1] == at[i] + |parts[i]|
  }

  /** Where each of the parts stands, if they stand at `p` together. */
  lemma {:induction false} Lay(t: Text, p: nat, parts: seq<Text>, n: nat) returns (at: seq<nat>)
    requires n <= |parts| && Has(t, p, Joined(parts, n))
    ensures Laid(t, parts[..n], at) && at[0] == p && at[n] == p + |Joined(parts, n)|
  {
    if n == 0 {
      at := [p];
    } else {
      HasParts(t, p, Joined(parts, n - 1), parts[n - 1]);
      at := Lay(t, p, parts, n - 1);
      assert parts[..n] == parts[..n - 1] + [parts[n - 1]];
      at := at + [at[n - 1] + |parts[n - 1]|];
    }
  }

  // ------------------------------------------------- reading back

  lemma {:induction false} EntityNameRead(t: Text, p: nat, name: Text, rest: Text)
    requires Has(t, p, rest + [SEMICOLON]) && forall i :: 0 <= i < |rest| ==> WordChar(rest[i])
    ensures EntityName(t, p, name) == Ok((name + rest, p + |rest| + 1))
    decreases |rest|
  {
    HasAt(t, p, rest + [SEMICOLON], 0);
    if rest == [] {
      assert name + rest == name;
    } else {
      assert rest + [SEMICOLON] == [rest[0]] + (rest[1..] + [SEMICOLON]);
      HasParts(t, p, [rest[0]], rest[1..] + [SEMICOLON]);
      EntityNameRead(t, p + 1, name + [rest[0]], rest[1..]);
      assert name + [rest[0]] + rest[1..] == name + rest;
    }
  }

  lemma EntityRead(c: Context, t: Text, p: nat, name: Text, text: Text)
    requires !c.compat && c.expand(name) == Ok(text)
    requires forall i :: 0 <= i < |name| ==> WordChar(name[i])
    requires Has(t, p, [AMP] + (name + [SEMICOLON]))
    ensures PieceAt(c, t, p) == Ok(More(text, p + |name| + 2))
  {
    HasAt(t, p, [AMP] + (name + [SEMICOLON]), 0);
    HasParts(t, p, [AMP], name + [SEMICOLON]);
    EntityNameRead(t, p + 1, [], name);
    assert [] + name == name;
  }

  /** What Escape writes has its meaning in this context; the old format knows no entities. */
  ghost predicate Escapes(c: Context) {
    c.compat || Predefined(c)
  }

  /** The escape of one byte is read back as one piece. The old format has none for a quote. */
  lemma PieceOfEscape(c: Context, t: Text, p: nat, b: Byte)
    requires Escapes(c) && (c.compat ==> b != QUOTE) && Has(t, p, EscapeByte(b, !c.compat))
    ensures PieceAt(c, t, p) == Ok(More(KeptByte(b), p + |EscapeByte(b, !c.compat)|))
  {
    if b == AMP && !c.compat {
      assert EscapeByte(b, true) == [AMP] + ([97, 109, 112] + [SEMICOLON]);
      EntityRead(c, t, p, [97, 109, 112], [b]);
    } else if b == QUOTE {
      assert EscapeByte(b, true) == [AMP] + ([113, 117, 111, 116] + [SEMICOLON]);
      EntityRead(c, t, p, [113, 117, 111, 116], [b]);
    } else {
      HasAt(t, p, EscapeByte(b, !c.compat), 0);
      if b == BACKSLASH && c.compat {
        HasAt(t, p, EscapeByte(b, false), 1);
      }
    }
  }

  /** The escape of byte `k` stands behind the escapes of the bytes before it. */
  lemma {:induction false} EscapeStands(t: Text, p: nat, s: Text, xml: bool, k: nat, n: nat)
    requires k < n <= |s| && Has(t, p, Escaped(s, xml, n))
    ensures Has(t, p + |Escaped(s, xml, k)|, EscapeByte(s[k], xml))
    decreases n
  {
    HasParts(t, p, Escaped(s, xml, n - 1), EscapeByte(s[n - 1], xml));
    if k < n - 1 {
      EscapeStands(t, p, s, xml, k, n - 1);
    }
  }

  /** What is still to come after the escapes of the first `k` bytes of `s` were read. */
  function Remaining(c: Context, t: Text, p: nat, s: Text, value: Text, k: nat): Result<(Text, nat), Error>
  {
    if k <= |s| && p + |Escaped(s, !c.compat, k)| <= |t| then
      ValueAt(c, t, p + |Escaped(s, !c.compat, k)|, value + WithoutCr(s, k))
    else Err(UnexpectedEof)
  }

  lemma ReadOne(c: Context, t: Text, p: nat, s: Text, value: Text, k: nat)
    requires Escapes(c) && k < |s| && (c.compat ==> s[k] != QUOTE)
    requires Has(t, p + |Escaped(s, !c.compat, k)|, EscapeByte(s[k], !c.compat))
    ensures Remaining(c, t, p, s, value, k) == Remaining(c, t, p, s, value, k + 1)
  {
    PieceOfEscape(c, t, p + |Escaped(s, !c.compat, k)|, s[k]);
    Regroup(value, WithoutCr(s, k), KeptByte(s[k]));
  }

  lemma {:induction false} ReadUpTo(c: Context, t: Text, p: nat, s: Text, value: Text, k: nat)
    requires Escapes(c) && Has(t, p, Escaped(s, !c.compat, |s|)) && k <= |s|
    requires c.compat ==> forall i :: 0 <= i < k ==> s[i] != QUOTE
    ensures Remaining(c, t, p, s, value, 0) == Remaining(c, t, p, s, value, k)
  {
    hide Remaining, Escaped, EscapeByte, Escapes, Has;
    if k > 0 {
      ReadUpTo(c, t, p, s, value, k - 1);
      EscapeStands(t, p, s, !c.compat, k - 1, |s|);
      ReadOne(c, t, p, s, value, k - 1);
    }
  }

  /** Reading what was escaped, up to the closing quote, gives the text back without
      its carriage returns. */
  lemma EscapeReadBack(c: Context, t: Text, p: nat, s: Text, value: Text)
    requires Predefined(c) && !c.compat && Has(t, p, Escaped(s, true, |s|) + [QUOTE])
    ensures ValueAt(c, t, p, value) == Ok((value + WithoutCr(s, |s|), p + |Escaped(s, true, |s|)| + 1))
  {
    HasParts(t, p, Escaped(s, true, |s|), [QUOTE]);
    ReadUpTo(c, t, p, s, value, |s|);
    assert value + [] == value;
    HasAt(t, p + |Escaped(s, true, |s|)|, [QUOTE], 0);
  }

  lemma {:induction false} WithoutCrSame(s: Text, k: nat)
    requires k <= |s|
    ensures |WithoutCr(s, k)| <= k
    ensures WithoutCr(s, k) == s[..k] <==> forall i :: 0 <= i < k ==> s[i] != CR
  {
    if k > 0 {
      WithoutCrSame(s, k - 1);
      if WithoutCr(s, k) == s[..k] {
        assert s[k - 1] != CR;
        assert WithoutCr(s, k - 1) == WithoutCr(s, k)[..k - 1] == s[..k - 1];
      }
      assert s[..k] == s[..k - 1] + [s[k - 1]];
    }
  }

  /** The round trip: an escaped value in quotes is read back unchanged exactly if it has
      no carriage return. */
  lemma EscapeRoundTrip(c: Context, s: Text)
    requires Predefined(c) && !c.compat
    ensures var t := Escaped(s, true, |s|) + [QUOTE];
            && ValueAt(c, t, 0, []) == Ok((WithoutCr(s, |s|), |t|))
            && (ValueAt(c, t, 0, []) == Ok((s, |t|)) <==> CR !in s)
  {
    hide ValueAt, Escaped;
    var t := Escaped(s, true, |s|) + [QUOTE];
    assert t[0..|t|] == t;
    EscapeReadBack(c, t, 0, s, []);
    assert [] + WithoutCr(s, |s|) == WithoutCr(s, |s|);
    WithoutCrSame(s, |s|);
    assert s[..|s|] == s;
  }

  /** The number of bytes before the first quote. */
  function UpToQuote(s: Text): (n: nat)
    ensures n <= |s| && (n < |s| ==> s[n] == QUOTE) && forall i :: 0 <= i < n ==> s[i] != QUOTE
    decreases |s|
  {
    if s == [] || s[0] == QUOTE then 0 else 1 + UpToQuote(s[1..])
  }

  /** What stands behind the escapes before the first quote ends the value in the old format. */
  lemma QuoteStands(s: Text)
    ensures var t, n := Escaped(s, false, |s|) + [QUOTE], UpToQuote(s);
            Has(t, |Escaped(s, false, n)|, [QUOTE])
  {
    var t, n := Escaped(s, false, |s|) + [QUOTE], UpToQuote(s);
    assert t[0..|t|] == t;
    HasParts(t, 0, Escaped(s, false, |s|), [QUOTE]);
    if n < |s| {
      EscapeStands(t, 0, s, false, n, |s|);
    }
  }

  lemma OldFormatRead(c: Context, s: Text)
    requires c.compat
    ensures var t, n := Escaped(s, false, |s|) + [QUOTE], UpToQuote(s);
            ValueAt(c, t, 0, []) == Ok((WithoutCr(s, n), |Escaped(s, false, n)| + 1))
  {
    hide ValueAt, Escaped, WithoutCr, UpToQuote;
    var t, n := Escaped(s, false, |s|) + [QUOTE], UpToQuote(s);
    assert t[0..|t|] == t;
    HasParts(t, 0, Escaped(s, false, |s|), [QUOTE]);
    ReadUpTo(c, t, 0, s, [], n);
    NothingEscaped(s);
    QuoteStands(s);
    HasAt(t, |Escaped(s, false, n)|, [QUOTE], 0);
    EndOfValue(c, t, |Escaped(s, false, n)|, [] + WithoutCr(s, n));
    assert [] + WithoutCr(s, n) == WithoutCr(s, n);
  }

  /** In the old format an escaped value is read up to its first quote, so it is read back
      unchanged exactly if it has no carriage return and no quote. */
  lemma OldFormatRoundTrip(c: Context, s: Text)
    requires c.compat
    ensures var t, n := Escaped(s, false, |s|) + [QUOTE], UpToQuote(s);
            && ValueAt(c, t, 0, []) == Ok((WithoutCr(s, n), |Escaped(s, false, n)| + 1))
            && (ValueAt(c, t, 0, []) == Ok((s, |t|)) <==> CR !in s && QUOTE !in s)
  {
    hide ValueAt, Escaped, WithoutCr;
    var n := UpToQuote(s);
    OldFormatRead(c, s);
    WithoutCrSame(s, n);
    if n < |s| {
      assert s[n] in s;
    } else {
      assert s[..n] == s;
    }
  }

  lemma NothingEscaped(s: Text)
    ensures Escaped(s, false, 0) == [] && [] + WithoutCr(s, 0) == []
  {
  }

  lemma EndOfValue(c: Context, t: Text, p: nat, value: Text)
    requires p < |t| && t[p] == QUOTE
    ensures ValueAt(c, t, p, value) == Ok((value, p + 1))
  {
  }
}
