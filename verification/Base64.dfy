/**
  Base 64 (section 4 of RFC 4648) as the server writes and reads it: any table of 64
  characters, any padding character or none, and a decoder whose 32-bit accumulator
  overflows on every input of more than five characters.
 */
module Base64 {
  import opened Bytes
  import opened Sequences

  type Sextet = x: int | 0 <= x < 64 witness 0

  /** The standard table: capital letters, small letters, digits, plus and slash. */
  const STANDARD: Text :=
    seq(64, i requires 0 <= i < 64 =>
      if i < 26 then 65 + i else if i < 52 then 71 + i else if i < 62 then i - 4 else if i == 62 then 43 else 47)

  ghost predicate Table(table: Text) {
    |table| == 64 && NulFree(table) && NoDuplicates(table)
  }

  lemma StandardIsTable()
    ensures Table(STANDARD)
  {
  }

  // ------------------------------------------------- encoding

  function First(a: Byte): Sextet { a / 4 }
  function Second(a: Byte, b: Byte): Sextet { a % 4 * 16 + b / 16 }
  function Third(b: Byte, c: Byte): Sextet { b % 16 * 4 + c / 64 }
  function Fourth(c: Byte): Sextet { c % 64 }

  function Four(a: Byte, b: Byte, c: Byte): seq<Sextet> {
    [First(a), Second(a, b), Third(b, c), Fourth(c)]
  }

  /** The bits of the text in groups of six, the last group filled up with zeroes. */
  function Sextets(s: Text): seq<Sextet> {
    if s == [] then []
    else if |s| == 1 then [First(s[0]), Second(s[0], 0)]
    else if |s| == 2 then [First(s[0]), Second(s[0], s[1]), Third(s[1], 0)]
    else Four(s[0], s[1], s[2]) + Sextets(s[3..])
  }

  function Spelled(table: Text, xs: seq<Sextet>): (r: Text)
    requires |table| >= 64
    ensures |r| == |xs|
  {
    seq(|xs|, i requires 0 <= i < |xs| => table[xs[i]])
  }

  function Padding(n: nat, pad: Byte): Text {
    if pad == 0 || n % 3 == 0 then [] else if n % 3 == 1 then [pad, pad] else [pad]
  }

  function Encoded(table: Text, pad: Byte, s: Text): Text
    requires |table| >= 64
  {
    Spelled(table, Sextets(s)) + Padding(|s|, pad)
  }

  lemma SpelledConcat(table: Text, xs: seq<Sextet>, ys: seq<Sextet>)
    requires |table| >= 64
    ensures Spelled(table, xs + ys) == Spelled(table, xs) + Spelled(table, ys)
  {
  }

  /** Six bits of a 24-bit number. */
  function Bits(buffer: nat, shift: nat): Sextet
    requires shift > 0
  {
    buffer / shift % 64
  }

  /** Three bytes as the 24-bit number that shifting and or-ing makes of them. */
  function Packed(a: Byte, b: Byte, c: Byte): nat {
    a as int * 65536 + b as int * 256 + c as int
  }

  /** A quotient and a remainder, put together with a power of two, come apart again. */
  lemma Apart(d: nat, x: nat, r: nat)
    requires d == 4 || d == 16 || d == 64 || d == 256
    requires r < d
    ensures (d * x + r) / d == x && (d * x + r) % d == r
  {
    if d == 4 {
      assert (4 * x + r) / 4 == x;
    } else if d == 16 {
      assert (16 * x + r) / 16 == x;
    } else if d == 64 {
      assert (64 * x + r) / 64 == x;
    } else {
      assert (256 * x + r) / 256 == x;
    }
  }

  lemma BitsOfSum(w: Sextet, x: Sextet, y: Sextet, z: Sextet)
    ensures var n: nat := w as int * 262144 + x as int * 4096 + y as int * 64 + z as int;
            Bits(n, 262144) == w && Bits(n, 4096) == x && Bits(n, 64) == y && Bits(n, 1) == z
  {
    var n: nat := w as int * 262144 + x as int * 4096 + y as int * 64 + z as int;
    assert n / 262144 == w;
    assert n / 4096 == w as int * 64 + x as int;
    assert n / 64 == w as int * 4096 + x as int * 64 + y as int;
  }

  lemma BitsOfGroup(a: Byte, b: Byte, c: Byte)
    ensures var buffer := Packed(a, b, c);
            && Bits(buffer, 262144) == First(a) && Bits(buffer, 4096) == Second(a, b)
            && Bits(buffer, 64) == Third(b, c) && Bits(buffer, 1) == Fourth(c)
  {
    assert Packed(a, b, c)
        == First(a) as int * 262144 + Second(a, b) as int * 4096 + Third(b, c) as int * 64 + Fourth(c) as int;
    BitsOfSum(First(a), Second(a, b), Third(b, c), Fourth(c));
  }

  /** The four characters of three bytes. */
  method Group(a: Byte, b: Byte, c: Byte, table: Text) returns (four: Text)
    requires |table| >= 64
    ensures four == Spelled(table, Four(a, b, c))
  {
    hide First, Second, Third, Fourth, Bits, Packed;
    var buffer := Packed(a, b, c);
    BitsOfGroup(a, b, c);
    four := [table[Bits(buffer, 262144)], table[Bits(buffer, 4096)], table[Bits(buffer, 64)], table[Bits(buffer, 1)]];
  }

  lemma SextetsStep(s: Text)
    requires |s| >= 3
    ensures Sextets(s) == Four(s[0], s[1], s[2]) + Sextets(s[3..])
  {
    hide Four;
  }

  /** One round: the characters of three bytes go from what is to come to what is there. */
  lemma EncodeStep(data: Text, i: nat, table: Text, rv: Text)
    requires |table| >= 64 && i + 2 < |data|
    ensures rv + Spelled(table, Sextets(data[i..]))
         == rv + Spelled(table, Four(data[i], data[i + 1], data[i + 2])) + Spelled(table, Sextets(data[i + 3..]))
  {
    var s := data[i..];
    SextetsStep(s);
    assert s[3..] == data[i + 3..];
    var four, rest := Four(s[0], s[1], s[2]), Sextets(s[3..]);
    SpelledConcat(table, four, rest);
    Regroup(rv, Spelled(table, four), Spelled(table, rest));
  }

  lemma EncodeEnd(data: Text, i: nat, table: Text, pad: Byte, rv: Text)
    requires |table| >= 64 && i <= |data| && i % 3 == 0
    ensures rv + Encoded(table, pad, data[i..]) == rv + Spelled(table, Sextets(data[i..])) + Padding(|data|, pad)
  {
    assert (|data| - i) % 3 == |data| % 3;
    Regroup(rv, Spelled(table, Sextets(data[i..])), Padding(|data|, pad));
  }

  method BinToBase64(data: Text, table: Text, pad: Byte) returns (rv: Text)
    requires |table| >= 64
    ensures rv == Encoded(table, pad, data)
  {
    rv := [];
    var i := 0;
    assert data[0..] == data;
    while i + 2 < |data|
      invariant i <= |data| && i % 3 == 0
      invariant rv + Spelled(table, Sextets(data[i..])) == Spelled(table, Sextets(data))
    {
      EncodeStep(data, i, table, rv);
      var four := Group(data[i], data[i + 1], data[i + 2], table);
      rv := rv + four;
      i := i + 3;
    }
    var tail := Tail(data[i..], table, pad);
    EncodeEnd(data, i, table, pad, rv);
    rv := rv + tail;
  }

  /** The last one or two bytes, with padding. */
  method Tail(data: Text, table: Text, pad: Byte) returns (rv: Text)
    requires |table| >= 64 && |data| < 3
    ensures rv == Encoded(table, pad, data)
  {
    hide First, Second, Third, Fourth, Bits, Packed;
    rv := [];
    if |data| == 1 {
      var buffer := Packed(data[0], 0, 0);
      BitsOfGroup(data[0], 0, 0);
      rv := [table[Bits(buffer, 262144)], table[Bits(buffer, 4096)]];
      if pad != 0 {
        rv := rv + [pad, pad];
      }
    } else if |data| == 2 {
      var buffer := Packed(data[0], data[1], 0);
      BitsOfGroup(data[0], data[1], 0);
      rv := [table[Bits(buffer, 262144)], table[Bits(buffer, 4096)], table[Bits(buffer, 64)]];
      if pad != 0 {
        rv := rv + [pad];
      }
    }
  }

  // ------------------------------------------------- decoding

  /** strchr in a string without NUL: the first place of `c`, or the length if there is none. */
  function StrChr(table: Text, c: Byte): (i: nat)
    ensures i <= |table| && (i < |table| ==> table[i] == c)
    ensures forall j :: 0 <= j < i ==> table[j] != c
  {
    if table == [] || table[0] == c then 0 else
    var rest := StrChr(table[1..], c);
    assert forall j :: 1 <= j < 1 + rest ==> table[j] == table[1..][j - 1];
    1 + rest
  }

  /** The characters of the table at the head of the text, as their places. */
  function ReadSextets(table: Text, s: Text): seq<Sextet>
    requires |table| >= 64
  {
    if s == [] || StrChr(table, s[0]) >= 64 then [] else [StrChr(table, s[0])] + ReadSextets(table, s[1..])
  }

  /** The lowest bits of a number; the number of bits is 0, 2, 4 or 6. */
  function Low(n: nat, bits: nat): nat {
    if bits == 0 then 0 else if bits == 2 then n % 4 else if bits == 4 then n % 16 else n % 64
  }

  /** The eight bits above them. */
  function High(n: nat, bits: nat): Byte {
    if bits == 0 then n % 256 else if bits == 2 then n / 4 % 256 else if bits == 4 then n / 16 % 256 else n / 64 % 256
  }

  ghost predicate Pending(bits: int) {
    bits == 0 || bits == 2 || bits == 4 || bits == 6
  }

  /** The bytes that more sextets complete, `v` being the pending bits. */
  function Unpacked(v: nat, bits: nat, xs: seq<Sextet>): Text
    decreases |xs|
  {
    if xs == [] then []
    else if bits < 2 then Unpacked(v * 64 + xs[0], bits + 6, xs[1..])
    else var all := v * 64 + xs[0];
         [High(all, bits - 2)] + Unpacked(Low(all, bits - 2), bits - 2, xs[1..])
  }

  function Decoded(table: Text, s: Text): Text
    requires |table| >= 64
  {
    Unpacked(0, 0, ReadSextets(table, s))
  }

  const UINT32 := 0x1_0000_0000

  // What the accumulator keeps, for each number of pending bits: the new sextet and,
  // above it, the pending bits; everything higher is a multiple of the next power of two.

  /** Wrapping takes off a multiple of 4096, as 4096 divides 2^32. */
  lemma Wrapped(n: nat) returns (k: nat)
    ensures n == n % UINT32 + 4096 * k
  {
    k := n / UINT32 * 0x10_0000;
  }

  lemma OverflowAt0(buffer: nat, x: Sextet)
    ensures (buffer * 64 + x) % UINT32 % 64 == x
  {
    var k := Wrapped(buffer * 64 + x);
    Apart64(buffer - 64 * k, x);
  }

  lemma OverflowAt2(buffer: nat, x: Sextet)
    ensures (buffer * 64 + x) % UINT32 % 256 == buffer % 4 * 64 + x
  {
    var k := Wrapped(buffer * 64 + x);
    Apart256(buffer / 4 - 16 * k, buffer % 4 * 64 + x);
  }

  lemma OverflowAt4(buffer: nat, x: Sextet)
    ensures var n, all := (buffer * 64 + x) % UINT32, buffer % 16 * 64 + x;
            n / 4 % 256 == all / 4 % 256 && n % 4 == all % 4
  {
    var k := Wrapped(buffer * 64 + x);
    var n, all: nat := (buffer * 64 + x) % UINT32, buffer % 16 * 64 + x;
    var m := buffer / 16 - 4 * k;
    assert n == 1024 * m + all;
    Shifted4(m, all);
  }

  lemma OverflowAt6(buffer: nat, x: Sextet)
    ensures var n, all := (buffer * 64 + x) % UINT32, buffer % 64 * 64 + x;
            n / 16 % 256 == all / 16 % 256 && n % 16 == all % 16
  {
    var k := Wrapped(buffer * 64 + x);
    var n, all: nat := (buffer * 64 + x) % UINT32, buffer % 64 * 64 + x;
    var m := buffer / 64 - k;
    assert n == 4096 * m + all;
    Shifted16(m, all);
  }

  lemma Apart64(x: int, r: nat)
    requires r < 64
    ensures (64 * x + r) % 64 == r
  {
  }

  lemma Apart256(x: int, r: nat)
    requires r < 256
    ensures (256 * x + r) % 256 == r
  {
  }

  lemma Shifted4(m: int, all: nat)
    ensures (1024 * m + all) / 4 % 256 == all / 4 % 256 && (1024 * m + all) % 4 == all % 4
  {
    Split4(m, all);
    Same256(m, all / 4);
  }

  lemma Split4(m: int, all: nat)
    ensures (1024 * m + all) / 4 == 256 * m + all / 4 && (1024 * m + all) % 4 == all % 4
  {
  }

  lemma Shifted16(m: int, all: nat)
    ensures (4096 * m + all) / 16 % 256 == all / 16 % 256 && (4096 * m + all) % 16 == all % 16
  {
    Split16(m, all);
    Same256(m, all / 16);
  }

  lemma Split16(m: int, all: nat)
    ensures (4096 * m + all) / 16 == 256 * m + all / 16 && (4096 * m + all) % 16 == all % 16
  {
  }

  lemma Same256(m: int, n: nat)
    ensures (256 * m + n) % 256 == n % 256
  {
  }

  /** Only the pending bits of the accumulator matter, so overflow does no harm. */
  lemma OverflowIsHarmless(buffer: nat, bits: nat, x: Sextet)
    requires Pending(bits)
    ensures var buffer', all := (buffer * 64 + x) % UINT32, Low(buffer, bits) * 64 + x;
            if bits == 0 then Low(buffer', 6) == all
            else High(buffer', bits - 2) == High(all, bits - 2) && Low(buffer', bits - 2) == Low(all, bits - 2)
  {
    if bits == 0 {
      OverflowAt0(buffer, x);
    } else if bits == 2 {
      OverflowAt2(buffer, x);
    } else if bits == 4 {
      OverflowAt4(buffer, x);
    } else {
      OverflowAt6(buffer, x);
    }
  }

  /** One round: a sextet joins the pending bits, which may complete a byte. */
  lemma DecodeStep(buffer: nat, bits: nat, x: Sextet, rest: seq<Sextet>, rv: Text)
    requires Pending(bits)
    ensures var buffer' := (buffer * 64 + x) % UINT32;
            rv + Unpacked(Low(buffer, bits), bits, [x] + rest) ==
              if bits == 0 then rv + Unpacked(Low(buffer', 6), 6, rest)
              else rv + [High(buffer', bits - 2)] + Unpacked(Low(buffer', bits - 2), bits - 2, rest)
  {
    OverflowIsHarmless(buffer, bits, x);
    assert ([x] + rest)[1..] == rest;
    if bits != 0 {
      var buffer' := (buffer * 64 + x) % UINT32;
      Regroup(rv, [High(buffer', bits - 2)], Unpacked(Low(buffer', bits - 2), bits - 2, rest));
    }
  }

  lemma ReadStep(table: Text, s: Text, i: nat)
    requires |table| >= 64 && i < |s| && StrChr(table, s[i]) < 64
    ensures ReadSextets(table, s[i..]) == [StrChr(table, s[i])] + ReadSextets(table, s[i + 1..])
  {
    assert s[i..][1..] == s[i + 1..];
  }

  method Base64ToBin(data: Text, table: Text) returns (rv: Text)
    requires |table| >= 64 && NulFree(table)
    ensures rv == Decoded(table, CString(data))
  {
    var s := CString(data);
    rv := [];
    var bitcount, buffer: nat, i := 0, 0, 0;
    assert s[0..] == s;
    while true
      invariant i <= |s| && Pending(bitcount)
      invariant rv + Unpacked(Low(buffer, bitcount), bitcount, ReadSextets(table, s[i..])) == Decoded(table, s)
      decreases |s| - i
    {
      if i == |s| {
        break;
      }
      var find := StrChr(table, s[i]);
      if find >= 64 {
        break;
      }
      ReadStep(table, s, i);
      DecodeStep(buffer, bitcount, find, ReadSextets(table, s[i + 1..]), rv);
      buffer := (buffer * 64 + find) % UINT32;
      bitcount := bitcount + 6;
      if bitcount >= 8 {
        bitcount := bitcount - 8;
        rv := rv + [High(buffer, bitcount)];
      }
      i := i + 1;
    }
  }

  // ------------------------------------------------- the round trip

  lemma {:induction false} ReadSpelled(table: Text, xs: seq<Sextet>, tail: Text)
    requires Table(table) && (tail == [] || tail[0] !in table)
    ensures ReadSextets(table, Spelled(table, xs) + tail) == xs
  {
    var s := Spelled(table, xs) + tail;
    if xs == [] {
      assert s == tail;
    } else {
      assert s[0] == table[xs[0]];
      assert s[1..] == Spelled(table, xs[1..]) + tail;
      ReadSpelled(table, xs[1..], tail);
      var i := StrChr(table, s[0]);
      assert i == xs[0];
    }
  }

  lemma SecondByte(a: Byte, b: Byte)
    ensures var all: nat := First(a) * 64 + Second(a, b);
            all / 16 % 256 == a && all % 16 == b / 16
  {
    assert First(a) * 64 + Second(a, b) == 16 * (4 * (a / 4) + a % 4) + b / 16;
    Apart(16, a, b / 16);
  }

  lemma ThirdByte(b: Byte, c: Byte)
    ensures var all: nat := b / 16 * 64 + Third(b, c);
            all / 4 % 256 == b && all % 4 == c / 64
  {
    assert b / 16 * 64 + Third(b, c) == 4 * (16 * (b / 16) + b % 16) + c / 64;
    Apart(4, b, c / 64);
  }

  lemma FourthByte(c: Byte)
    ensures var all: nat := c / 64 * 64 + Fourth(c);
            all / 1 % 256 == c && all % 1 == 0
  {
    assert c / 64 * 64 + Fourth(c) == c;
  }

  lemma UnpackSecond(a: Byte, b: Byte, rest: seq<Sextet>)
    ensures Unpacked(0, 0, [First(a), Second(a, b)] + rest) == [a] + Unpacked(b / 16, 4, rest)
  {
    hide First, Second, Unpacked;
    SecondByte(a, b);
    UnpackTwo(First(a), Second(a, b), rest);
  }

  lemma UnpackTwo(x: Sextet, y: Sextet, rest: seq<Sextet>)
    ensures var all: nat := x * 64 + y;
            Unpacked(0, 0, [x, y] + rest) == [High(all, 4)] + Unpacked(Low(all, 4), 4, rest)
  {
    hide High, Low;
    UnpackFirst(x, [y] + rest);
    UnpackNext(x, 6, y, rest);
    assert [x, y] + rest == [x] + ([y] + rest);
  }

  lemma UnpackFirst(x: Sextet, rest: seq<Sextet>)
    ensures Unpacked(0, 0, [x] + rest) == Unpacked(x, 6, rest)
  {
    assert ([x] + rest)[1..] == rest;
  }

  lemma UnpackNext(v: nat, bits: nat, x: Sextet, rest: seq<Sextet>)
    requires bits >= 2
    ensures var all := v * 64 + x;
            Unpacked(v, bits, [x] + rest) == [High(all, bits - 2)] + Unpacked(Low(all, bits - 2), bits - 2, rest)
  {
    hide High, Low;
    assert ([x] + rest)[1..] == rest;
  }

  lemma UnpackThird(b: Byte, c: Byte, rest: seq<Sextet>)
    ensures Unpacked(b / 16, 4, [Third(b, c)] + rest) == [b] + Unpacked(c / 64, 2, rest)
  {
    hide Third, Unpacked;
    UnpackNext(b / 16, 4, Third(b, c), rest);
    ThirdByte(b, c);
  }

  lemma UnpackFourth(c: Byte, rest: seq<Sextet>)
    ensures Unpacked(c / 64, 2, [Fourth(c)] + rest) == [c] + Unpacked(0, 0, rest)
  {
    hide Fourth, Unpacked;
    UnpackNext(c / 64, 2, Fourth(c), rest);
    FourthByte(c);
  }

  lemma GroupUnpacked(a: Byte, b: Byte, c: Byte, rest: seq<Sextet>)
    ensures Unpacked(0, 0, Four(a, b, c) + rest) == [a, b, c] + Unpacked(0, 0, rest)
  {
    hide First, Second, Third, Fourth, Unpacked;
    var fourth := [Fourth(c)] + rest;
    var third := [Third(b, c)] + fourth;
    assert Four(a, b, c) + rest == [First(a), Second(a, b)] + third;
    UnpackSecond(a, b, third);
    UnpackThird(b, c, fourth);
    UnpackFourth(c, rest);
    assert [a] + ([b] + ([c] + Unpacked(0, 0, rest))) == [a, b, c] + Unpacked(0, 0, rest);
  }

  lemma OneUnpacked(a: Byte)
    ensures Unpacked(0, 0, [First(a), Second(a, 0)]) == [a]
  {
    hide First, Second, Third, Fourth;
    assert [First(a), Second(a, 0)] == [First(a), Second(a, 0)] + [];
    UnpackSecond(a, 0, []);
    assert [a] + [] == [a];
  }

  lemma TwoUnpacked(a: Byte, b: Byte)
    ensures Unpacked(0, 0, [First(a), Second(a, b), Third(b, 0)]) == [a, b]
  {
    hide First, Second, Third, Fourth;
    var third := [Third(b, 0)] + [];
    assert [First(a), Second(a, b), Third(b, 0)] == [First(a), Second(a, b)] + third;
    UnpackSecond(a, b, third);
    UnpackThird(b, 0, []);
    assert [a] + ([b] + []) == [a, b];
  }

  lemma TailOne(s: Text)
    requires |s| == 1
    ensures Sextets(s) == [First(s[0]), Second(s[0], 0)] && s == [s[0]]
  {
    hide First, Second, Third, Fourth;
  }

  lemma TailTwo(s: Text)
    requires |s| == 2
    ensures Sextets(s) == [First(s[0]), Second(s[0], s[1]), Third(s[1], 0)] && s == [s[0], s[1]]
  {
    hide First, Second, Third, Fourth;
  }

  lemma {:induction false} UnpackSextets(s: Text)
    ensures Unpacked(0, 0, Sextets(s)) == s
  {
    if s == [] {
    } else if |s| == 1 {
      TailOne(s);
      OneUnpacked(s[0]);
    } else if |s| == 2 {
      TailTwo(s);
      TwoUnpacked(s[0], s[1]);
    } else {
      SextetsStep(s);
      GroupUnpacked(s[0], s[1], s[2], Sextets(s[3..]));
      UnpackSextets(s[3..]);
      assert s == [s[0], s[1], s[2]] + s[3..];
    }
  }

  /** The sextets that the padding adds when its character is in the table. */
  function Spurious(table: Text, n: nat, pad: Byte): (xs: seq<Sextet>)
    requires Table(table)
    ensures pad in table ==> Spelled(table, xs) == Padding(n, pad) && |xs| == |Padding(n, pad)|
    ensures pad !in table ==> xs == []
  {
    if pad !in table then []
    else
      var i := StrChr(table, pad);
      seq(|Padding(n, pad)|, _ => i)
  }

  /** What is read back of an encoded text: its own sextets and those of the padding. */
  lemma ReadEncoded(table: Text, pad: Byte, s: Text)
    requires Table(table)
    ensures NulFree(Encoded(table, pad, s))
    ensures ReadSextets(table, Encoded(table, pad, s)) == Sextets(s) + Spurious(table, |s|, pad)
  {
    var text, xs, more := Encoded(table, pad, s), Sextets(s), Spurious(table, |s|, pad);
    assert forall i :: 0 <= i < |text| ==> text[i] in table || (text[i] == pad && pad != 0);
    if pad in table {
      SpelledConcat(table, xs, more);
      assert text == Spelled(table, xs + more) + [];
      ReadSpelled(table, xs + more, []);
    } else {
      assert xs + more == xs;
      ReadSpelled(table, xs, Padding(|s|, pad));
    }
  }

  lemma {:induction false} UnpackedLength(v: nat, bits: nat, xs: seq<Sextet>)
    requires bits < 8
    ensures |Unpacked(v, bits, xs)| == (bits + 6 * |xs|) / 8
    decreases |xs|
  {
    if xs != [] {
      if bits < 2 {
        UnpackedLength(v * 64 + xs[0], bits + 6, xs[1..]);
      } else {
        UnpackedLength(Low(v * 64 + xs[0], bits - 2), bits - 2, xs[1..]);
      }
    }
  }

  lemma {:induction false} SextetsLength(s: Text)
    ensures var k, r := |s| / 3, |s| % 3;
            |Sextets(s)| == 4 * k + if r == 0 then 0 else r + 1
  {
    if |s| >= 3 {
      SextetsLength(s[3..]);
    }
  }

  /** Decoding undoes encoding, for every text, every table of 64 different characters and
      every padding or none, exactly if the padding character is outside the table or the
      text needs no padding. */
  lemma DecodeEncodeExactly(table: Text, pad: Byte, s: Text)
    requires Table(table)
    ensures Decoded(table, CString(Encoded(table, pad, s))) == s <==> pad !in table || |s| % 3 == 0
  {
    var text, xs, more := Encoded(table, pad, s), Sextets(s), Spurious(table, |s|, pad);
    ReadEncoded(table, pad, s);
    CStringWhole(text);
    UnpackSextets(s);
    if pad !in table || |s| % 3 == 0 {
      assert xs + more == xs;
    } else {
      LongerBack(s, more);
    }
  }

  /** As many sextets more as padding adds complete at least one byte more. */
  lemma LongerBack(s: Text, more: seq<Sextet>)
    requires |s| % 3 != 0 && |more| == 3 - |s| % 3
    ensures |Unpacked(0, 0, Sextets(s) + more)| > |s|
  {
    var k := |s| / 3;
    SextetsLength(s);
    assert |Sextets(s) + more| == 4 * (k + 1) && 6 * (4 * (k + 1)) / 8 == 3 * (k + 1);
    UnpackedLength(0, 0, Sextets(s) + more);
  }

  /** The round trip with padding outside the table. */
  lemma DecodeEncode(table: Text, pad: Byte, s: Text)
    requires Table(table) && pad !in table
    ensures NulFree(Encoded(table, pad, s)) && Decoded(table, CString(Encoded(table, pad, s))) == s
  {
    ReadEncoded(table, pad, s);
    DecodeEncodeExactly(table, pad, s);
  }

  const EQUALS_SIGN: Byte := 61

  /** In particular with the table used by default, with `=` or without padding. */
  lemma StandardRoundTrip(pad: Byte, s: Text)
    requires pad == 0 || pad == EQUALS_SIGN
    ensures Decoded(STANDARD, CString(Encoded(STANDARD, pad, s))) == s
  {
    StandardIsTable();
    DecodeEncode(STANDARD, pad, s);
  }

  /** With padding the text comes in whole groups of four characters, of which at most the
      last two are padding. */
  lemma PaddedToFour(table: Text, pad: Byte, s: Text)
    requires |table| >= 64 && pad != 0
    ensures |Encoded(table, pad, s)| == 4 * ((|s| + 2) / 3)
    ensures var n, text := |Sextets(s)|, Encoded(table, pad, s);
            |text| - n <= 2 && forall i :: n <= i < |text| ==> text[i] == pad
  {
    SextetsLength(s);
  }

  lemma PaddedOne(a: Byte)
    ensures Encoded(STANDARD, EQUALS_SIGN, [a])
         == [STANDARD[First(a)], STANDARD[Second(a, 0)], EQUALS_SIGN, EQUALS_SIGN]
  {
  }

  /** Section 10 of RFC 4648: "foobar" is "Zm9vYmFy", "fo" is "Zm8=" and "f" is "Zg==". */
  lemma TestVectors()
    ensures Encoded(STANDARD, EQUALS_SIGN, [102, 111, 111, 98, 97, 114]) == [90, 109, 57, 118, 89, 109, 70, 121]
    ensures Encoded(STANDARD, EQUALS_SIGN, [102, 111]) == [90, 109, 56, 61]
    ensures Encoded(STANDARD, EQUALS_SIGN, [102]) == [90, 103, 61, 61]
  {
    var s: Text := [102, 111, 111, 98, 97, 114];
    assert s[3..] == [98, 97, 114] && s[3..][3..] == [];
    assert Sextets(s[3..]) == Four(98, 97, 114) + [];
    assert Sextets(s) == Four(102, 111, 111) + Four(98, 97, 114);
    assert Sextets(s) == [25, 38, 61, 47, 24, 38, 5, 50];
    assert Sextets([102, 111]) == [25, 38, 60] && Sextets([102]) == [25, 32];
  }
}
