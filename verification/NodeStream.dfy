/**
  The tokenizer over a separated string: a position that moves past one token at
  a time, with or without empty tokens.
 */
module NodeStream {
  import opened Bytes

  /** The position of the first `c` at or after `pos`, or the length. */
  function Find(s: Text, c: Byte, pos: nat): (p: nat)
    requires pos <= |s|
    ensures pos <= p <= |s| && (p < |s| ==> s[p] == c)
    ensures forall i :: pos <= i < p ==> s[i] != c
    decreases |s| - pos
  {
    if pos == |s| || s[pos] == c then pos else Find(s, c, pos + 1)
  }

  /** The position of the first byte other than `c`, or the length. */
  function FindNot(s: Text, c: Byte, pos: nat): (p: nat)
    requires pos <= |s|
    ensures pos <= p <= |s| && (p < |s| ==> s[p] != c)
    decreases |s| - pos
  {
    if pos == |s| || s[pos] != c then pos else FindNot(s, c, pos + 1)
  }

  /** Where the next token starts, and where it ends. */
  function Start(s: Text, sep: Byte, allowEmpty: bool, pos: nat): (p: nat)
    requires pos <= |s|
    ensures pos <= p <= |s|
  {
    if allowEmpty then pos else FindNot(s, sep, pos)
  }

  function End(s: Text, sep: Byte, allowEmpty: bool, pos: nat): (p: nat)
    requires pos <= |s|
    ensures Start(s, sep, allowEmpty, pos) <= p <= |s|
  {
    Find(s, sep, Start(s, sep, allowEmpty, pos))
  }

  predicate Finished(s: Text, sep: Byte, allowEmpty: bool, pos: nat) {
    pos > |s| || (!allowEmpty && Start(s, sep, allowEmpty, pos) == |s|)
  }

  /** The tokens still to come when the stream stands at `pos`. */
  function Rest(s: Text, sep: Byte, allowEmpty: bool, pos: nat): seq<Text>
    decreases |s| + 1 - pos
  {
    if Finished(s, sep, allowEmpty, pos) then [] else
    var p := End(s, sep, allowEmpty, pos);
    [s[Start(s, sep, allowEmpty, pos)..p]] + Rest(s, sep, allowEmpty, p + 1)
  }

  class Stream {
    const tokens: Text
    const sep: Byte
    const allowEmpty: bool
    var pos: nat

    constructor (source: Text, separator: Byte, empties: bool)
      ensures tokens == source && sep == separator && allowEmpty == empties && pos == 0
    {
      tokens, sep, allowEmpty, pos := source, separator, empties, 0;
    }

    ghost function Remaining(): seq<Text>
      reads this
    {
      Rest(tokens, sep, allowEmpty, pos)
    }

    method Extract() returns (ok: bool, token: Text)
      modifies this
      ensures ok <==> old(Remaining()) != []
      ensures if ok then token == old(Remaining())[0] && Remaining() == old(Remaining())[1..]
              else token == [] && Remaining() == []
      ensures ok ==> pos > old(pos) && old(pos) <= |tokens|
    {
      if pos > |tokens| {
        return false, [];
      }
      if !allowEmpty {
        pos := FindNot(tokens, sep, pos);
        if pos == |tokens| {
          pos := |tokens| + 1;
          return false, [];
        }
      }
      var p := Find(tokens, sep, pos);
      token := tokens[pos..p];
      pos := p + 1;
      return true, token;
    }
  }

  // ------------------------------------------------- reading what was joined

  /** Every token followed by the separator. */
  function Terminated(tokens: seq<Text>, sep: Byte): Text {
    if tokens == [] then [] else tokens[0] + [sep] + Terminated(tokens[1..], sep)
  }

  function NonEmpty(tokens: seq<Text>): seq<Text> {
    if tokens == [] then []
    else (if tokens[0] == [] then [] else [tokens[0]]) + NonEmpty(tokens[1..])
  }

  /** What the stream says about a suffix is what a stream over the suffix alone would say. */
  lemma {:induction false} FindShift(s: Text, c: Byte, k: nat, pos: nat)
    requires k + pos <= |s|
    ensures Find(s, c, k + pos) == k + Find(s[k..], c, pos)
    ensures FindNot(s, c, k + pos) == k + FindNot(s[k..], c, pos)
    decreases |s| - pos
  {
    if k + pos < |s| {
      FindShift(s, c, k, pos + 1);
    }
  }

  lemma TokenShift(s: Text, sep: Byte, allowEmpty: bool, k: nat, pos: nat)
    requires k <= |s|
    ensures Finished(s, sep, allowEmpty, k + pos) == Finished(s[k..], sep, allowEmpty, pos)
    ensures k + pos <= |s| ==>
              && Start(s, sep, allowEmpty, k + pos) == k + Start(s[k..], sep, allowEmpty, pos)
              && End(s, sep, allowEmpty, k + pos) == k + End(s[k..], sep, allowEmpty, pos)
  {
    if k + pos <= |s| {
      FindShift(s, sep, k, pos);
      FindShift(s, sep, k, Start(s[k..], sep, allowEmpty, pos));
    }
  }

  lemma RestFrom(s: Text, sep: Byte, allowEmpty: bool, pos: nat, to: nat, token: Text, rest: seq<Text>)
    requires !Finished(s, sep, allowEmpty, pos) && to == End(s, sep, allowEmpty, pos)
    requires token == s[Start(s, sep, allowEmpty, pos)..to] && rest == Rest(s, sep, allowEmpty, to + 1)
    ensures Rest(s, sep, allowEmpty, pos) == [token] + rest
  {
  }

  lemma {:induction false} RestShift(s: Text, sep: Byte, allowEmpty: bool, k: nat, pos: nat)
    requires k <= |s|
    ensures Rest(s, sep, allowEmpty, k + pos) == Rest(s[k..], sep, allowEmpty, pos)
    decreases |s| + 1 - pos
  {
    TokenShift(s, sep, allowEmpty, k, pos);
    if !Finished(s[k..], sep, allowEmpty, pos) {
      RestShift(s, sep, allowEmpty, k, End(s[k..], sep, allowEmpty, pos) + 1);
      RestShiftStep(s, sep, allowEmpty, k, pos);
    }
  }

  /** The same for one token, given that it holds behind it. */
  lemma RestShiftStep(s: Text, sep: Byte, allowEmpty: bool, k: nat, pos: nat)
    requires k <= |s| && !Finished(s[k..], sep, allowEmpty, pos)
    requires var to := End(s[k..], sep, allowEmpty, pos);
             Rest(s, sep, allowEmpty, k + (to + 1)) == Rest(s[k..], sep, allowEmpty, to + 1)
    ensures Rest(s, sep, allowEmpty, k + pos) == Rest(s[k..], sep, allowEmpty, pos)
  {
    hide Rest, Start, End, Finished;
    var u := s[k..];
    var from, to := Start(u, sep, allowEmpty, pos), End(u, sep, allowEmpty, pos);
    TokenShift(s, sep, allowEmpty, k, pos);
    SameSlice(s, k, from, to);
    RestFrom(s, sep, allowEmpty, k + pos, k + to, u[from..to], Rest(u, sep, allowEmpty, to + 1));
    RestFrom(u, sep, allowEmpty, pos, to, u[from..to], Rest(u, sep, allowEmpty, to + 1));
  }

  lemma SameSlice(s: Text, k: nat, from: nat, to: nat)
    requires k <= |s| && from <= to <= |s| - k
    ensures s[k + from..k + to] == s[k..][from..to] && k + (to + 1) == k + to + 1
  {
  }

  lemma {:induction false} FindFirst(t: Text, c: Byte, rest: Text, pos: nat)
    requires c !in t && pos <= |t|
    ensures Find(t + [c] + rest, c, pos) == |t|
    decreases |t| - pos
  {
    if pos < |t| {
      assert (t + [c] + rest)[pos] == t[pos] && t[pos] in t;
      FindFirst(t, c, rest, pos + 1);
    } else {
      assert (t + [c] + rest)[|t|] == c;
    }
  }

  lemma RestBehind(t: Text, sep: Byte, rest: Text)
    ensures Rest(t + [sep] + rest, sep, false, |t| + 1) == Rest(rest, sep, false, 0)
  {
    var s := t + [sep] + rest;
    assert s[|t| + 1..] == rest;
    RestShift(s, sep, false, |t| + 1, 0);
  }

  /** The stream steps over one joined token; an empty one leaves no trace. */
  lemma FirstToken(t: Text, sep: Byte, rest: Text)
    requires sep !in t
    ensures Rest(t + [sep] + rest, sep, false, 0) == (if t == [] then [] else [t]) + Rest(rest, sep, false, 0)
  {
    var s := t + [sep] + rest;
    RestBehind(t, sep, rest);
    if t == [] {
      SkipSeparator(s, sep);
    } else {
      TakeToken(s, t, sep, rest);
    }
  }

  lemma SkipSeparator(s: Text, sep: Byte)
    requires s != [] && s[0] == sep
    ensures Rest(s, sep, false, 0) == Rest(s, sep, false, 1)
  {
    assert FindNot(s, sep, 0) == FindNot(s, sep, 1);
  }

  lemma TakeToken(s: Text, t: Text, sep: Byte, rest: Text)
    requires s == t + [sep] + rest && t != [] && sep !in t
    ensures Rest(s, sep, false, 0) == [t] + Rest(s, sep, false, |t| + 1)
  {
    assert s[0] == t[0] && t[0] in t;
    FindFirst(t, sep, rest, 0);
    assert Start(s, sep, false, 0) == 0 && End(s, sep, false, 0) == |t|;
    assert s[0..|t|] == t;
  }

  /** Reading joined tokens gives back exactly the non-empty ones, in order. */
  lemma {:induction false} ReadTerminated(tokens: seq<Text>, sep: Byte)
    requires forall t :: t in tokens ==> sep !in t
    ensures Rest(Terminated(tokens, sep), sep, false, 0) == NonEmpty(tokens)
  {
    if tokens != [] {
      FirstToken(tokens[0], sep, Terminated(tokens[1..], sep));
      ReadTerminated(tokens[1..], sep);
    }
  }

  /** A last token needs no separator behind it. */
  lemma LastToken(t: Text, sep: Byte)
    requires sep !in t
    ensures Rest(t, sep, false, 0) == if t == [] then [] else [t]
  {
    if t != [] {
      assert forall i :: 0 <= i < |t| ==> t[i] != sep;
      assert FindNot(t, sep, 0) == 0;
      assert Find(t, sep, 0) == |t|;
      assert t[0..|t|] == t;
    }
  }

  // ------------------------------------------------- with empty tokens

  /** Tokens with a separator between any two. */
  function Joined(tokens: seq<Text>, sep: Byte): Text {
    if tokens == [] then [] else if |tokens| == 1 then tokens[0] else tokens[0] + [sep] + Joined(tokens[1..], sep)
  }

  lemma OnlyToken(t: Text, sep: Byte)
    requires sep !in t
    ensures Rest(t, sep, true, 0) == [t]
  {
    assert forall i :: 0 <= i < |t| ==> t[i] != sep;
    assert Find(t, sep, 0) == |t|;
    assert t[0..|t|] == t;
  }

  lemma EmptyOrNotToken(t: Text, sep: Byte, rest: Text)
    requires sep !in t
    ensures Rest(t + [sep] + rest, sep, true, 0) == [t] + Rest(rest, sep, true, 0)
  {
    hide Rest;
    var s := t + [sep] + rest;
    FindFirst(t, sep, rest, 0);
    assert s[0..|t|] == t;
    assert s[|t| + 1..] == rest;
    RestShift(s, sep, true, |t| + 1, 0);
    RestFrom(s, sep, true, 0, |t|, t, Rest(rest, sep, true, 0));
  }

  /** When empty tokens are allowed, reading joined tokens gives back every one of them. */
  lemma {:induction false} ReadJoined(tokens: seq<Text>, sep: Byte)
    requires tokens != [] && forall t :: t in tokens ==> sep !in t
    ensures Rest(Joined(tokens, sep), sep, true, 0) == tokens
  {
    if |tokens| == 1 {
      OnlyToken(tokens[0], sep);
    } else {
      EmptyOrNotToken(tokens[0], sep, Joined(tokens[1..], sep));
      ReadJoined(tokens[1..], sep);
    }
  }
}
