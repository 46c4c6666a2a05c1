/**
  The bcrypt setting and output handling around the Blowfish core: the radix-64
  alphabet, BF_decode and BF_encode, the checks on a setting, and the layout of a
  hash.  The core itself is a parameter: any function of key, subtype flags, cost
  and decoded salt.  Shifts and masks on bytes are written as `/`, `%` and `*` by
  powers of two, and an OR of disjoint bit ranges as `+`.
 */
module Bcrypt {
  import opened Wrappers
  import opened Bytes
  import opened Sequences

  type Digit = d: int | 0 <= d < 64 witness 0

  // ------------------------------------------------- the alphabet

  /** BF_itoa64: "./", then the upper-case letters, the lower-case ones, the digits. */
  function Itoa64(d: Digit): Byte {
    if d == 0 then 46 else if d == 1 then 47
    else if d < 28 then 65 + (d - 2) else if d < 54 then 97 + (d - 28) else 48 + (d - 54)
  }

  /** BF_safe_atoi64 with its table: no digit outside the alphabet. */
  function Atoi64(c: Byte): Option<Digit> {
    if c == 46 then Some(0) else if c == 47 then Some(1)
    else if 65 <= c <= 90 then Some(c - 65 + 2) else if 97 <= c <= 122 then Some(c - 97 + 28)
    else if 48 <= c <= 57 then Some(c - 48 + 54) else None
  }

  // ------------------------------------------------- specification of the codec

  /** How many characters encode `n` bytes. */
  function CharsFor(n: nat): nat {
    n / 3 * 4 + (if n % 3 == 0 then 0 else n % 3 + 1)
  }

  // the four digits of up to three bytes, and the three bytes of up to four digits

  function Digit1(b1: Byte): Digit { b1 / 4 }
  function Digit2(b1: Byte, b2: Byte): Digit { b1 % 4 * 16 + b2 / 16 }
  function Digit3(b2: Byte, b3: Byte): Digit { b2 % 16 * 4 + b3 / 64 }
  function Digit4(b3: Byte): Digit { b3 % 64 }

  function Byte1(c1: Digit, c2: Digit): Byte { c1 * 4 + c2 / 16 }
  function Byte2(c2: Digit, c3: Digit): Byte { c2 % 16 * 16 + c3 / 4 }
  function Byte3(c3: Digit, c4: Digit): Byte { c3 % 4 * 64 + c4 }

  /** The characters for the first three bytes, or for all when there are fewer. */
  function QuadOf(src: seq<Byte>): (r: seq<Byte>)
    requires src != []
    ensures |r| == if |src| < 3 then |src| + 1 else 4
  {
    if |src| == 1 then [Itoa64(Digit1(src[0])), Itoa64(Digit2(src[0], 0))]
    else if |src| == 2 then
      [Itoa64(Digit1(src[0])), Itoa64(Digit2(src[0], src[1])), Itoa64(Digit3(src[1], 0))]
    else
      [Itoa64(Digit1(src[0])), Itoa64(Digit2(src[0], src[1])), Itoa64(Digit3(src[1], src[2])), Itoa64(Digit4(src[2]))]
  }

  function Encoded(src: seq<Byte>): (r: seq<Byte>)
    ensures |r| == CharsFor(|src|)
  {
    if src == [] then []
    else if |src| < 3 then QuadOf(src)
    else QuadOf(src) + Encoded(src[3..])
  }

  function CharAt(s: seq<Byte>, i: nat): Byte {
    if i < |s| then s[i] else 0
  }

  /** The characters from `p` on; nothing beyond the terminator. */
  function From(s: seq<Byte>, p: nat): seq<Byte> {
    if p <= |s| then s[p..] else []
  }

  function Prepend(a: seq<Byte>, b: Option<seq<Byte>>): Option<seq<Byte>> {
    if b.None? then None else Some(a + b.value)
  }

  lemma AppendNothing(a: seq<Byte>)
    ensures Prepend(a, Some([])) == Some(a)
  {
    assert a + [] == a;
  }

  lemma PrependNothing(r: Option<seq<Byte>>)
    ensures Prepend([], r) == r
  {
    if r.Some? {
      assert [] + r.value == r.value;
    }
  }

  /** The first three bytes, or the `left` that are wanted, from up to four
      characters of a C string; None if one of those is not in the alphabet. */
  function Quad(src: seq<Byte>, left: nat): (r: Option<seq<Byte>>)
    requires left > 0
    ensures r.Some? ==> |r.value| == if left < 3 then left else 3
  {
    var c1, c2 := Atoi64(CharAt(src, 0)), Atoi64(CharAt(src, 1));
    if c1.None? || c2.None? then None
    else if left == 1 then Some([Byte1(c1.value, c2.value)])
    else
      var c3 := Atoi64(CharAt(src, 2));
      if c3.None? then None
      else if left == 2 then Some([Byte1(c1.value, c2.value), Byte2(c2.value, c3.value)])
      else
        var c4 := Atoi64(CharAt(src, 3));
        if c4.None? then None
        else Some([Byte1(c1.value, c2.value), Byte2(c2.value, c3.value), Byte3(c3.value, c4.value)])
  }

  /** The bytes decoded from the characters of a C string. */
  function Decoded(src: seq<Byte>, size: nat): (r: Option<seq<Byte>>)
    ensures r.Some? ==> |r.value| == size
    decreases size
  {
    if size == 0 then Some([]) else
    var q := Quad(src, size);
    if q.None? then None else Prepend(q.value, Decoded(From(src, 4), size - |q.value|))
  }

  // ------------------------------------------------- decoding undoes encoding

  lemma Alphabet(d: Digit, c: Byte)
    ensures Atoi64(Itoa64(d)) == Some(d) && Itoa64(d) != 0
    ensures Atoi64(c).Some? ==> Itoa64(Atoi64(c).value) == c
  {
  }

  lemma BytesBack(b1: Byte, b2: Byte, b3: Byte)
    ensures Byte1(Digit1(b1), Digit2(b1, b2)) == b1
    ensures Byte2(Digit2(b1, b2), Digit3(b2, b3)) == b2
    ensures Byte3(Digit3(b2, b3), Digit4(b3)) == b3
  {
  }

  lemma DigitsBack(c1: Digit, c2: Digit, c3: Digit, c4: Digit)
    ensures Digit1(Byte1(c1, c2)) == c1
    ensures Digit2(Byte1(c1, c2), Byte2(c2, c3)) == c2 && Digit2(Byte1(c1, c2), 0) == c2 / 16 * 16
    ensures Digit3(Byte2(c2, c3), Byte3(c3, c4)) == c3 && Digit3(Byte2(c2, c3), 0) == c3 / 4 * 4
    ensures Digit4(Byte3(c3, c4)) == c4
  {
  }

  lemma DecodeStep(src: seq<Byte>, size: nat, c1: Digit, c2: Digit, c3: Digit, c4: Digit)
    requires size >= 3 && |src| >= 4
    requires Atoi64(src[0]) == Some(c1) && Atoi64(src[1]) == Some(c2) && Atoi64(src[2]) == Some(c3) && Atoi64(src[3]) == Some(c4)
    ensures Decoded(src, size) == Prepend([Byte1(c1, c2), Byte2(c2, c3), Byte3(c3, c4)], Decoded(src[4..], size - 3))
  {
  }

  /** Decoding the characters of an encoding, whatever follows them, gives the bytes back. */
  lemma {:induction false} DecodeEncode(src: seq<Byte>, tail: seq<Byte>)
    ensures Decoded(Encoded(src) + tail, |src|) == Some(src)
  {
    if |src| >= 3 {
      var e := Encoded(src) + tail;
      var d1, d2, d3, d4 := Digit1(src[0]), Digit2(src[0], src[1]), Digit3(src[1], src[2]), Digit4(src[2]);
      assert e == [Itoa64(d1), Itoa64(d2), Itoa64(d3), Itoa64(d4)] + (Encoded(src[3..]) + tail);
      Alphabet(d1, 0);
      Alphabet(d2, 0);
      Alphabet(d3, 0);
      Alphabet(d4, 0);
      DecodeStep(e, |src|, d1, d2, d3, d4);
      BytesBack(src[0], src[1], src[2]);
      DecodeEncode(src[3..], tail);
      assert src == [src[0], src[1], src[2]] + src[3..];
    } else {
      DecodeEncodeShort(src, tail);
    }
  }

  lemma DecodeEncodeShort(src: seq<Byte>, tail: seq<Byte>)
    requires |src| < 3
    ensures Decoded(Encoded(src) + tail, |src|) == Some(src)
  {
    if |src| == 1 {
      DecodeEncodeOne(src[0], Encoded(src) + tail);
      assert src == [src[0]];
    } else if |src| == 2 {
      DecodeEncodeTwo(src[0], src[1], Encoded(src) + tail);
      assert src == [src[0], src[1]];
    }
  }

  lemma DecodeEncodeOne(b1: Byte, e: seq<Byte>)
    requires |e| >= 2 && e[0] == Itoa64(Digit1(b1)) && e[1] == Itoa64(Digit2(b1, 0))
    ensures Decoded(e, 1) == Some([b1])
  {
    BytesBack(b1, 0, 0);
    Alphabet(Digit1(b1), 0);
    Alphabet(Digit2(b1, 0), 0);
    DecodeOne(e, Digit1(b1), Digit2(b1, 0));
  }

  lemma DecodeEncodeTwo(b1: Byte, b2: Byte, e: seq<Byte>)
    requires |e| >= 3
    requires e[0] == Itoa64(Digit1(b1)) && e[1] == Itoa64(Digit2(b1, b2)) && e[2] == Itoa64(Digit3(b2, 0))
    ensures Decoded(e, 2) == Some([b1, b2])
  {
    BytesBack(b1, b2, 0);
    Alphabet(Digit1(b1), 0);
    Alphabet(Digit2(b1, b2), 0);
    Alphabet(Digit3(b2, 0), 0);
    DecodeTwo(e, Digit1(b1), Digit2(b1, b2), Digit3(b2, 0));
  }

  lemma DecodeOne(src: seq<Byte>, c1: Digit, c2: Digit)
    requires |src| >= 2 && Atoi64(src[0]) == Some(c1) && Atoi64(src[1]) == Some(c2)
    ensures Decoded(src, 1) == Some([Byte1(c1, c2)])
  {
    AppendNothing([Byte1(c1, c2)]);
  }

  lemma DecodeTwo(src: seq<Byte>, c1: Digit, c2: Digit, c3: Digit)
    requires |src| >= 3 && Atoi64(src[0]) == Some(c1) && Atoi64(src[1]) == Some(c2) && Atoi64(src[2]) == Some(c3)
    ensures Decoded(src, 2) == Some([Byte1(c1, c2), Byte2(c2, c3)])
  {
    AppendNothing([Byte1(c1, c2), Byte2(c2, c3)]);
  }

  /** What encoding makes of the last character of an encoding: the bits that carry
      no information are cleared. */
  function LastDigit(c: Byte, size: nat): Byte
    requires Atoi64(c).Some?
  {
    if size % 3 == 1 then Itoa64(Atoi64(c).value / 16 * 16)
    else if size % 3 == 2 then Itoa64(Atoi64(c).value / 4 * 4)
    else c
  }

  lemma LastGroup(src: seq<Byte>)
    requires |src| >= 4 && Atoi64(src[3]).Some?
    ensures Encoded(Decoded(src[4..], 0).value) == [] && src[..4] + [] == src[..3] + [src[3]]
    ensures LastDigit(src[3], 3) == src[3] && CharsFor(3) == 4
  {
  }

  /** One group more in front of what is known about the rest. */
  lemma NextGroup(src: seq<Byte>, size: nat)
    requires Decoded(src, size).Some? && size > 3 && CharsFor(size) <= |src|
    requires var rest, n := src[4..], CharsFor(size - 3);
             && Decoded(rest, size - 3).Some? && n <= |rest| && Atoi64(rest[n - 1]).Some?
             && Encoded(Decoded(rest, size - 3).value) == rest[..n - 1] + [LastDigit(rest[n - 1], size - 3)]
    ensures var n := CharsFor(size);
            && Atoi64(src[n - 1]).Some?
            && Encoded(Decoded(src, size).value) == src[..n - 1] + [LastDigit(src[n - 1], size)]
  {
    EncodeStep(src, size);
    Shifted(src, CharsFor(size), LastDigit(src[4..][CharsFor(size - 3) - 1], size - 3));
  }

  /** Encoding what was decoded gives the same characters, except for the spare bits of the last. */
  lemma {:induction false} EncodeDecode(src: seq<Byte>, size: nat)
    requires Decoded(src, size).Some? && size > 0
    ensures var n := CharsFor(size);
            n <= |src| && Atoi64(src[n - 1]).Some?
            && Encoded(Decoded(src, size).value) == src[..n - 1] + [LastDigit(src[n - 1], size)]
  {
    Needed(src, size);
    if size < 3 {
      EncodeDecodeShort(src, size);
    } else {
      EncodeStep(src, size);
      if size == 3 {
        LastGroup(src);
      } else {
        EncodeDecode(src[4..], size - 3);
        NextGroup(src, size);
      }
    }
  }

  lemma Shifted(src: seq<Byte>, n: nat, c: Byte)
    requires 5 <= n <= |src|
    ensures src[4..][n - 5] == src[n - 1]
    ensures src[..4] + (src[4..][..n - 5] + [c]) == src[..n - 1] + [c]
  {
  }

  lemma EncodeStep(src: seq<Byte>, size: nat)
    requires Decoded(src, size).Some? && size >= 3 && |src| >= 4
    ensures Decoded(src[4..], size - 3).Some?
    ensures Encoded(Decoded(src, size).value) == src[..4] + Encoded(Decoded(src[4..], size - 3).value)
  {
    var c1, c2, c3, c4 := Atoi64(src[0]).value, Atoi64(src[1]).value, Atoi64(src[2]).value, Atoi64(src[3]).value;
    DecodeStep(src, size, c1, c2, c3, c4);
    Alphabet(0, src[0]);
    Alphabet(0, src[1]);
    Alphabet(0, src[2]);
    Alphabet(0, src[3]);
    DigitsBack(c1, c2, c3, c4);
    var b := Decoded(src, size).value;
    assert b[3..] == Decoded(src[4..], size - 3).value;
    assert src[..4] == [src[0], src[1], src[2], src[3]];
  }

  lemma EncodeDecodeShort(src: seq<Byte>, size: nat)
    requires Decoded(src, size).Some? && 0 < size < 3 && |src| >= CharsFor(size)
    ensures Atoi64(src[size]).Some?
    ensures Encoded(Decoded(src, size).value) == src[..size] + [LastDigit(src[size], size)]
  {
    var c1, c2 := Atoi64(src[0]).value, Atoi64(src[1]).value;
    Alphabet(0, src[0]);
    Alphabet(0, src[1]);
    if size == 1 {
      DigitsBack(c1, c2, 0, 0);
      assert src[..1] == [src[0]];
    } else {
      DigitsBack(c1, c2, Atoi64(src[2]).value, 0);
      assert src[..2] == [src[0], src[1]];
    }
  }

  /** Decoding stops at the terminator, so it succeeds only if all characters are there. */
  lemma {:induction false} Needed(src: seq<Byte>, size: nat)
    requires Decoded(src, size).Some?
    ensures CharsFor(size) <= |src|
    ensures forall i :: 0 <= i < CharsFor(size) ==> Atoi64(src[i]).Some?
  {
    if size > 3 {
      Needed(From(src, 4), size - 3);
    }
  }

  // ------------------------------------------------- the loops

  /** One round of the decoder, from the characters at `p` to the bytes at `d`. */
  method DecodeRound(dst: array<Byte>, d: nat, src: seq<Byte>, p: nat, size: nat) returns (rc: int, d': nat)
    requires d < size <= dst.Length
    modifies dst
    ensures rc == (if Quad(From(src, p), size - d).Some? then 0 else -1)
    ensures rc == 0 ==> d' == d + |Quad(From(src, p), size - d).value|
                        && dst[..d'] == old(dst[..d]) + Quad(From(src, p), size - d).value
    ensures forall i :: size <= i < dst.Length ==> dst[i] == old(dst[i])
  {
    rc, d' := -1, d;
    ghost var done := dst[..d];
    var c1, c2 := Atoi64(CharAt(src, p)), Atoi64(CharAt(src, p + 1));
    if c1.None? || c2.None? {
      return;
    }
    dst[d] := Byte1(c1.value, c2.value);
    if d + 1 >= size {
      assert dst[..d + 1] == done + [dst[d]];
      return 0, d + 1;
    }
    var c3 := Atoi64(CharAt(src, p + 2));
    if c3.None? {
      return;
    }
    dst[d + 1] := Byte2(c2.value, c3.value);
    if d + 2 >= size {
      assert dst[..d + 2] == done + [dst[d], dst[d + 1]];
      return 0, d + 2;
    }
    var c4 := Atoi64(CharAt(src, p + 3));
    if c4.None? {
      return;
    }
    dst[d + 2] := Byte3(c3.value, c4.value);
    assert dst[..d + 3] == done + [dst[d], dst[d + 1], dst[d + 2]];
    return 0, d + 3;
  }

  method BFDecode(dst: array<Byte>, src: seq<Byte>, size: nat) returns (rc: int)
    requires 1 <= size <= dst.Length
    modifies dst
    ensures rc == (if Decoded(src, size).Some? then 0 else -1)
    ensures rc == 0 ==> dst[..size] == Decoded(src, size).value
    ensures forall i :: size <= i < dst.Length ==> dst[i] == old(dst[i])
  {
    var d, p := 0, 0;
    assert From(src, 0) == src && dst[..0] == [];
    PrependNothing(Decoded(src, size));
    while d < size
      invariant d <= size && forall i :: size <= i < dst.Length ==> dst[i] == old(dst[i])
      invariant Decoded(src, size) == Prepend(dst[..d], Decoded(From(src, p), size - d))
    {
      ghost var done, quad := dst[..d], Quad(From(src, p), size - d);
      rc, d := DecodeRound(dst, d, src, p, size);
      if rc != 0 {
        return;
      }
      FromStep(src, p);
      p := p + 4;
      PrependTwice(done, quad.value, Decoded(From(src, p), size - d));
    }
    AppendNothing(dst[..size]);
    return 0;
  }

  lemma FromStep(s: seq<Byte>, p: nat)
    ensures From(s, p + 4) == From(From(s, p), 4)
  {
  }

  lemma PrependTwice(a: seq<Byte>, b: seq<Byte>, r: Option<seq<Byte>>)
    ensures Prepend(a, Prepend(b, r)) == Prepend(a + b, r)
  {
    if r.Some? {
      assert a + (b + r.value) == (a + b) + r.value;
    }
  }

  /** One round of the encoder, from the bytes at `p` to the characters at `d`. */
  method EncodeRound(dst: array<Byte>, d: nat, src: seq<Byte>, p: nat, size: nat) returns (d': nat)
    requires p < size <= |src| && d + |QuadOf(src[p..size])| <= dst.Length
    modifies dst
    ensures d' == d + |QuadOf(src[p..size])|
    ensures dst[..d'] == old(dst[..d]) + QuadOf(src[p..size]) && dst[d'..] == old(dst[d'..])
  {
    ghost var rest, before := src[p..size], dst[..d];
    assert rest[0] == src[p];
    var c1 := src[p];
    dst[d] := Itoa64(Digit1(c1));
    if p + 1 >= size {
      dst[d + 1] := Itoa64(Digit2(c1, 0));
      assert dst[..d + 2] == before + [dst[d], dst[d + 1]];
      return d + 2;
    }
    assert rest[1] == src[p + 1];
    var c2 := src[p + 1];
    dst[d + 1] := Itoa64(Digit2(c1, c2));
    if p + 2 >= size {
      dst[d + 2] := Itoa64(Digit3(c2, 0));
      assert dst[..d + 3] == before + [dst[d], dst[d + 1], dst[d + 2]];
      return d + 3;
    }
    assert rest[2] == src[p + 2];
    var c3 := src[p + 2];
    dst[d + 2] := Itoa64(Digit3(c2, c3));
    dst[d + 3] := Itoa64(Digit4(c3));
    assert dst[..d + 4] == before + [dst[d], dst[d + 1], dst[d + 2], dst[d + 3]];
    return d + 4;
  }

  /** The encoder writes its characters into `dst` from `at` on. */
  method BFEncode(dst: array<Byte>, at: nat, src: seq<Byte>, size: nat)
    requires 1 <= size <= |src| && at + CharsFor(size) <= dst.Length
    modifies dst
    ensures var end := at + CharsFor(size);
            dst[..end] == old(dst[..at]) + Encoded(src[..size]) && dst[end..] == old(dst[end..])
  {
    var p, d := 0, at;
    ghost var whole := dst[..at] + Encoded(src[..size]);
    assert src[0..size] == src[..size];
    while p < size
      invariant p <= size && at <= d <= dst.Length
      invariant dst[..d] + Encoded(src[p..size]) == whole && dst[d..] == old(dst[d..])
      decreases size - p
    {
      ghost var done, rest := dst[..d], src[p..size];
      QuadMoves(done, rest);
      d := EncodeRound(dst, d, src, p, size);
      p := if p + 3 <= size then p + 3 else size;
      assert src[p..size] == After(rest);
    }
    assert src[size..size] == [];
  }

  /** One round moves a quad from what is to come to what is there, within the whole. */
  lemma QuadMoves(done: seq<Byte>, rest: seq<Byte>)
    requires rest != []
    ensures done + Encoded(rest) == (done + QuadOf(rest)) + Encoded(After(rest))
    ensures |done| + |QuadOf(rest)| <= |done + Encoded(rest)|
  {
    RoundOf(rest);
    Regroup(done, QuadOf(rest), Encoded(After(rest)));
  }

  function After(src: seq<Byte>): seq<Byte> {
    if |src| < 3 then [] else src[3..]
  }

  lemma RoundOf(src: seq<Byte>)
    requires src != []
    ensures Encoded(src) == QuadOf(src) + Encoded(After(src))
  {
  }

  // ------------------------------------------------- hashing

  /** The Blowfish rounds: key, subtype flags, cost and decoded salt to 24 bytes. */
  type Core = (seq<Byte>, Byte, nat, seq<Byte>) -> seq<Byte>

  ghost predicate IsCore(core: Core) {
    forall key, flags, cost, salt :: |core(key, flags, cost, salt)| == 24
  }

  const DOLLAR: Byte := 36

  /** flags_by_subtype: the subtypes a, b, x and y are known. */
  function SubtypeFlags(c: Byte): Byte {
    if c == 97 then 2 else if c == 98 then 4 else if c == 120 then 1 else if c == 121 then 4 else 0
  }

  /** The fixed part of a setting: "$2" subtype "$" two digits of cost up to 31 "$". */
  predicate Prefixed(s: seq<Byte>) {
    && CharAt(s, 0) == DOLLAR && CharAt(s, 1) == 50 && SubtypeFlags(CharAt(s, 2)) != 0 && CharAt(s, 3) == DOLLAR
    && 48 <= CharAt(s, 4) <= 51 && 48 <= CharAt(s, 5) <= 57 && !(CharAt(s, 4) == 51 && CharAt(s, 5) > 49)
    && CharAt(s, 6) == DOLLAR
  }

  function Cost(s: seq<Byte>): nat
    requires Prefixed(s)
  {
    (CharAt(s, 4) - 48) * 10 + (CharAt(s, 5) - 48)
  }

  const HASH_SIZE := 7 + 22 + 31 + 1

  function Crypt(core: Core, key: seq<Byte>, setting: seq<Byte>, size: int, min: nat): (r: Option<seq<Byte>>)
    requires IsCore(core)
    ensures r.Some? ==> |r.value| == HASH_SIZE - 1
  {
    if size < HASH_SIZE || !Prefixed(setting) || Pow2(Cost(setting)) < min then None else
    var salt := Decoded(From(setting, 7), 16);
    if salt.None? then None else
    Needed(From(setting, 7), 16);
    Some(Hash(setting, core(key, SubtypeFlags(CharAt(setting, 2)), Cost(setting), salt.value)))
  }

  /** The layout of a hash: the setting with its last character cleaned, then 23 of the 24 bytes. */
  function Hash(setting: seq<Byte>, out: seq<Byte>): (h: seq<Byte>)
    requires |setting| > 28 && Atoi64(setting[28]).Some? && |out| == 24
    ensures |h| == HASH_SIZE - 1
  {
    setting[..28] + [LastDigit(setting[28], 16)] + Encoded(out[..23])
  }

  method WriteHash(setting: seq<Byte>, out: seq<Byte>, output: array<Byte>)
    requires |setting| > 28 && Atoi64(setting[28]).Some? && |out| == 24 && output.Length >= HASH_SIZE
    modifies output
    ensures output[..HASH_SIZE - 1] == Hash(setting, out) && output[HASH_SIZE - 1] == 0
  {
    for i := 0 to 28
      invariant forall j :: 0 <= j < i ==> output[j] == setting[j]
    {
      output[i] := setting[i];
    }
    output[28] := LastDigit(setting[28], 16);
    ghost var head := output[..29];
    assert head == setting[..28] + [LastDigit(setting[28], 16)];
    assert CharsFor(23) == 31;
    BFEncode(output, 29, out, 23);
    ghost var hash := output[..60];
    output[60] := 0;
    assert output[..60] == hash;
  }

  method BFCrypt(core: Core, key: seq<Byte>, setting: seq<Byte>, output: array<Byte>, size: int, min: nat) returns (ok: bool)
    requires IsCore(core) && size <= output.Length
    modifies output
    ensures ok <==> Crypt(core, key, setting, size, min).Some?
    ensures ok ==> output[..HASH_SIZE - 1] == Crypt(core, key, setting, size, min).value && output[HASH_SIZE - 1] == 0
    ensures !ok ==> output[..] == old(output[..])
  {
    if size < HASH_SIZE {
      return false;
    }
    if !Prefixed(setting) || Pow2(Cost(setting)) < min {
      return false;
    }
    var salt := new Byte[16];
    var rc := BFDecode(salt, From(setting, 7), 16);
    if rc != 0 {
      return false;
    }
    Needed(From(setting, 7), 16);
    assert salt[..] == salt[..16];
    var out := core(key, SubtypeFlags(CharAt(setting, 2)), Cost(setting), salt[..]);
    WriteHash(setting, out, output);
    return true;
  }

  lemma Parts(a: seq<Byte>, b: Byte, c: seq<Byte>)
    requires |a| == 28
    ensures var h := a + [b] + c;
            && h[..28] == a && h[..7] == a[..7] && h[28] == b
            && h[7..29] == a[7..] + [b] && h[7..] == h[7..29] + h[29..]
  {
  }

  lemma CleanedIsClean(c: Byte)
    requires Atoi64(c).Some?
    ensures Atoi64(LastDigit(c, 16)).Some? && LastDigit(LastDigit(c, 16), 16) == LastDigit(c, 16)
  {
    Alphabet(Atoi64(c).value / 16 * 16, 0);
  }

  lemma LayoutOfSalt(setting: seq<Byte>, out: seq<Byte>)
    requires |setting| > 28 && Atoi64(setting[28]).Some? && |out| == 24
    ensures var h := Hash(setting, out);
            && h[7..29] == From(setting, 7)[..21] + [LastDigit(setting[28], 16)]
            && h[..7] == setting[..7] && h[..28] == setting[..28]
            && From(h, 7) == h[7..29] + h[29..]
            && Atoi64(h[28]).Some? && LastDigit(h[28], 16) == h[28]
  {
    Parts(setting[..28], LastDigit(setting[28], 16), Encoded(out[..23]));
    CleanedIsClean(setting[28]);
    assert setting[..28][7..] == From(setting, 7)[..21];
  }

  lemma SaltReencoded(s: seq<Byte>)
    requires Decoded(s, 16).Some?
    ensures |s| >= 22 && Atoi64(s[21]).Some? && Encoded(Decoded(s, 16).value) == s[..21] + [LastDigit(s[21], 16)]
  {
    EncodeDecode(s, 16);
    assert CharsFor(16) == 22;
  }

  /** The salt in a hash is the encoding of the decoded salt of its setting. */
  lemma SaltIsCanonical(core: Core, key: seq<Byte>, setting: seq<Byte>, size: int, min: nat)
    requires IsCore(core) && Crypt(core, key, setting, size, min).Some?
    ensures var h := Crypt(core, key, setting, size, min).value;
            && Decoded(From(setting, 7), 16).Some?
            && h[7..29] == Encoded(Decoded(From(setting, 7), 16).value)
            && h[..7] == setting[..7]
  {
    SaltReencoded(From(setting, 7));
    LayoutOfSalt(setting, core(key, SubtypeFlags(CharAt(setting, 2)), Cost(setting), Decoded(From(setting, 7), 16).value));
  }

  lemma SaltRead(h: seq<Byte>, salt: seq<Byte>)
    requires |h| >= 29 && |salt| == 16 && h[7..29] == Encoded(salt) && From(h, 7) == h[7..29] + h[29..]
    ensures Decoded(From(h, 7), 16) == Some(salt)
  {
    DecodeEncode(salt, h[29..]);
  }

  /** The salt decoded from a hash is the salt it was made with, and its last character is clean. */
  lemma SaltSurvives(core: Core, key: seq<Byte>, setting: seq<Byte>, size: int, min: nat)
    requires IsCore(core) && Crypt(core, key, setting, size, min).Some?
    ensures var h := Crypt(core, key, setting, size, min).value;
            && Decoded(From(h, 7), 16) == Decoded(From(setting, 7), 16)
            && |setting| > 28 && h[..28] == setting[..28]
            && Atoi64(h[28]).Some? && LastDigit(h[28], 16) == h[28]
  {
    var salt := Decoded(From(setting, 7), 16).value;
    SaltReencoded(From(setting, 7));
    var out := core(key, SubtypeFlags(CharAt(setting, 2)), Cost(setting), salt);
    LayoutOfSalt(setting, out);
    SaltRead(Hash(setting, out), salt);
  }

  lemma SameLayout(setting: seq<Byte>, h: seq<Byte>, out: seq<Byte>)
    requires |setting| > 28 && Atoi64(setting[28]).Some? && |out| == 24 && h == Hash(setting, out)
    requires h[..28] == setting[..28] && Atoi64(h[28]).Some? && LastDigit(h[28], 16) == h[28]
    ensures Hash(h, out) == h
  {
  }

  /** A hash used as a setting reproduces itself. */
  lemma HashIsItsOwnSetting(core: Core, key: seq<Byte>, setting: seq<Byte>, size: int, min: nat)
    requires IsCore(core) && Crypt(core, key, setting, size, min).Some?
    ensures var h := Crypt(core, key, setting, size, min);
            Crypt(core, key, h.value, size, min) == h
  {
    var h := Crypt(core, key, setting, size, min).value;
    SaltSurvives(core, key, setting, size, min);
    SaltIsCanonical(core, key, setting, size, min);
    Needed(From(setting, 7), 16);
    SamePrefix(setting, h);
    SameLayout(setting, h,
      core(key, SubtypeFlags(CharAt(setting, 2)), Cost(setting), Decoded(From(setting, 7), 16).value));
  }

  /** More generally, it stands for the setting it was made with, whatever the key. */
  lemma HashAsSetting(core: Core, key: seq<Byte>, key0: seq<Byte>, setting: seq<Byte>, size: int, min: nat)
    requires IsCore(core) && Crypt(core, key0, setting, size, min).Some?
    ensures var h := Crypt(core, key0, setting, size, min).value;
            Crypt(core, key, h, size, min) == Crypt(core, key, setting, size, min)
  {
    var h := Crypt(core, key0, setting, size, min).value;
    SaltSurvives(core, key0, setting, size, min);
    SaltIsCanonical(core, key0, setting, size, min);
    Needed(From(setting, 7), 16);
    SamePrefix(setting, h);
    SameHash(setting, h,
      core(key, SubtypeFlags(CharAt(setting, 2)), Cost(setting), Decoded(From(setting, 7), 16).value));
  }

  lemma SameHash(setting: seq<Byte>, h: seq<Byte>, out: seq<Byte>)
    requires |setting| > 28 && Atoi64(setting[28]).Some? && |out| == 24 && |h| > 28
    requires h[..28] == setting[..28] && Atoi64(h[28]).Some? && h[28] == LastDigit(setting[28], 16)
    requires LastDigit(h[28], 16) == h[28]
    ensures Hash(h, out) == Hash(setting, out)
  {
  }

  lemma SamePrefix(s: seq<Byte>, t: seq<Byte>)
    requires Prefixed(s) && |s| >= 7 && |t| >= 7 && s[..7] == t[..7]
    ensures Prefixed(t) && Cost(t) == Cost(s) && CharAt(t, 2) == CharAt(s, 2)
  {
    assert forall i :: 0 <= i < 7 ==> s[i] == s[..7][i] && t[i] == t[..7][i];
  }

  /** The core is told the subtypes apart, except for b and y, which mean the same. */
  lemma SubtypesApart(c: Byte, d: Byte)
    requires SubtypeFlags(c) != 0 && SubtypeFlags(d) != 0
    ensures SubtypeFlags(c) == SubtypeFlags(d) <==> c == d || (c == 98 && d == 121) || (c == 121 && d == 98)
  {
  }

  /** What the Blowfish core makes of a key and an accepted setting. */
  function Output(core: Core, key: seq<Byte>, setting: seq<Byte>): (out: seq<Byte>)
    requires IsCore(core) && Prefixed(setting) && Decoded(From(setting, 7), 16).Some?
    ensures |out| == 24
  {
    Needed(From(setting, 7), 16);
    core(key, SubtypeFlags(CharAt(setting, 2)), Cost(setting), Decoded(From(setting, 7), 16).value)
  }

  /** Behind its salt a hash holds the first 23 bytes of what the core makes of the key. */
  lemma HashHoldsOutput(core: Core, key: seq<Byte>, setting: seq<Byte>, size: int, min: nat)
    requires IsCore(core) && Crypt(core, key, setting, size, min).Some?
    ensures var h := Crypt(core, key, setting, size, min).value;
            Decoded(From(h, 29), 23) == Some(Output(core, key, setting)[..23])
  {
    var h, out := Crypt(core, key, setting, size, min).value, Output(core, key, setting);
    Needed(From(setting, 7), 16);
    DecodeEncode(out[..23], []);
    assert From(h, 29) == Encoded(out[..23]) == Encoded(out[..23]) + [];
  }

  /** Two hashes of one setting are equal exactly if the core agrees on 23 bytes. */
  lemma HashesDifferExactly(core: Core, k1: seq<Byte>, k2: seq<Byte>, setting: seq<Byte>, size: int, min: nat)
    requires IsCore(core) && Crypt(core, k1, setting, size, min).Some?
    ensures Crypt(core, k2, setting, size, min).Some?
    ensures Crypt(core, k1, setting, size, min) == Crypt(core, k2, setting, size, min)
            <==> Output(core, k1, setting)[..23] == Output(core, k2, setting)[..23]
  {
    HashHoldsOutput(core, k1, setting, size, min);
    HashHoldsOutput(core, k2, setting, size, min);
  }

  // ------------------------------------------------- passwords

  /** _crypt_gensalt_blowfish_rn for the prefix "$2a$" and enough room: the setting for
      16 random bytes, where a cost of 0 stands for 5. */
  function GenSalt(count: nat, entropy: seq<Byte>): Option<seq<Byte>> {
    if |entropy| < 16 || (count != 0 && (count < 4 || count > 31)) then None else
    var c := if count == 0 then 5 else count;
    Some([DOLLAR, 50, 97, DOLLAR, 48 + c / 10, 48 + c % 10, DOLLAR] + Encoded(entropy[..16]))
  }

  /** BcryptServer::Generate with its 64-byte buffer: the hash, or a string that is no hash. */
  function Generate(core: Core, input: seq<Byte>, setting: seq<Byte>): seq<Byte>
    requires IsCore(core)
  {
    var h := Crypt(core, input, setting, 64, 16);
    if h.Some? then h.value
    else [42, if CharAt(setting, 0) == 42 && CharAt(setting, 1) == 48 then 49 else 48]
  }

  predicate Compare(core: Core, input: seq<Byte>, hash: seq<Byte>)
    requires IsCore(core)
  {
    Generate(core, input, hash) == hash
  }

  /** The strings that stand for a failed hash never compare equal to anything. */
  lemma CompareExactly(core: Core, input: seq<Byte>, hash: seq<Byte>)
    requires IsCore(core)
    ensures Compare(core, input, hash) <==> Crypt(core, input, hash, 64, 16) == Some(hash)
  {
    if Crypt(core, input, hash, 64, 16).None? {
      assert Generate(core, input, hash)[0] == 42;
    }
  }

  lemma SaltPrefixed(count: nat, entropy: seq<Byte>)
    requires GenSalt(count, entropy).Some?
    ensures var g := GenSalt(count, entropy).value;
            Prefixed(g) && Cost(g) == (if count == 0 then 5 else count) && Pow2(Cost(g)) >= 16
            && From(g, 7) == Encoded(entropy[..16]) && |g| == 29
  {
    var c := if count == 0 then 5 else count;
    assert CharsFor(16) == 22;
    Pow2Grows(4, c);
    assert Pow2(4) == 16;
  }

  /** A generated salt is accepted, and it is a prefix of every hash made with it. */
  lemma SaltIsAccepted(core: Core, input: seq<Byte>, count: nat, entropy: seq<Byte>)
    requires IsCore(core) && GenSalt(count, entropy).Some?
    ensures var g := GenSalt(count, entropy).value;
            Crypt(core, input, g, 64, 16).Some? && g <= Crypt(core, input, g, 64, 16).value
  {
    var g := GenSalt(count, entropy).value;
    SaltPrefixed(count, entropy);
    DecodeEncode(entropy[..16], []);
    assert Encoded(entropy[..16]) + [] == Encoded(entropy[..16]);
    SaltIsCanonical(core, input, g, 64, 16);
    var h := Crypt(core, input, g, 64, 16).value;
    assert g == g[..7] + From(g, 7);
    assert h[..29] == h[..7] + h[7..29];
  }

  /** Every stored password is recognised: whatever the password, the random bytes
      and the configured cost, comparing the password with its own hash succeeds. */
  lemma StoredPasswordVerifies(core: Core, input: seq<Byte>, count: nat, entropy: seq<Byte>)
    requires IsCore(core) && GenSalt(count, entropy).Some?
    ensures Compare(core, input, Generate(core, input, GenSalt(count, entropy).value))
  {
    SaltIsAccepted(core, input, count, entropy);
    HashIsItsOwnSetting(core, input, GenSalt(count, entropy).value, 64, 16);
  }

  /** A password is recognised against the hash stored for another exactly if the core cannot
      tell the two apart with that salt, in the 23 bytes that are kept. */
  lemma OtherPasswordVerifiesExactly(core: Core, input: seq<Byte>, input': seq<Byte>, count: nat, entropy: seq<Byte>)
    requires IsCore(core) && GenSalt(count, entropy).Some?
    ensures var g := GenSalt(count, entropy).value;
            && Prefixed(g) && Decoded(From(g, 7), 16) == Some(entropy[..16])
            && (Compare(core, input', Generate(core, input, g))
                <==> Output(core, input', g)[..23] == Output(core, input, g)[..23])
  {
    var g := GenSalt(count, entropy).value;
    SaltIsAccepted(core, input, count, entropy);
    SaltPrefixed(count, entropy);
    DecodeEncode(entropy[..16], []);
    assert Encoded(entropy[..16]) + [] == Encoded(entropy[..16]);
    var h := Crypt(core, input, g, 64, 16).value;
    CompareExactly(core, input', h);
    HashAsSetting(core, input', input, g, 64, 16);
    HashesDifferExactly(core, input, input', g, 64, 16);
  }
}
