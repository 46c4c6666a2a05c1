/**
  Strings as binary digits, as stored in the database: eight digits for every byte.
  Reading skips white space before every group and takes at most eight digits for
  one byte, as extraction from a stream into a bitset does.
 */
module Converter {
  import opened Bytes
  import opened Sequences

  const ZERO: Byte := 48
  const ONE: Byte := 49

  predicate IsDigit(c: Byte) { c == ZERO || c == ONE }

  ghost predicate Digits(s: Text) {
    forall i :: 0 <= i < |s| ==> IsDigit(s[i])
  }

  /** The lowest `n` binary digits of `b`, highest first. */
  function Bits(b: nat, n: nat): (r: Text)
    ensures |r| == n && Digits(r)
  {
    if n == 0 then [] else Bits(b / 2, n - 1) + [if b % 2 == 0 then ZERO else ONE]
  }

  /** The number a string of binary digits stands for. */
  function Number(s: Text): nat {
    if s == [] then 0 else 2 * Number(s[..|s| - 1]) + (if s[|s| - 1] == ONE then 1 else 0)
  }

  lemma {:induction false} NumberBound(s: Text)
    ensures Number(s) < Pow2(|s|)
  {
    if s != [] {
      NumberBound(s[..|s| - 1]);
    }
  }

  lemma {:induction false} NumberOfBits(b: nat, n: nat)
    requires b < Pow2(n)
    ensures Number(Bits(b, n)) == b
  {
    if n > 0 {
      NumberOfBits(b / 2, n - 1);
      assert Bits(b, n)[..n - 1] == Bits(b / 2, n - 1);
    }
  }

  function ToBin(data: Text): (r: Text)
    ensures |r| == 8 * |data| && Digits(r)
  {
    if data == [] then [] else Bits(data[0], 8) + ToBin(data[1..])
  }

  function SkipSpace(s: Text): (r: Text)
    ensures |r| <= |s|
  {
    if s != [] && IsSpace(s[0]) then SkipSpace(s[1..]) else s
  }

  /** The length of the run of digits at the front, at most `max`. */
  function Run(s: Text, max: nat): (n: nat)
    ensures n <= max && n <= |s| && Digits(s[..n])
  {
    if max == 0 || s == [] || !IsDigit(s[0]) then 0 else 1 + Run(s[1..], max - 1)
  }

  /** The byte read from a group of up to eight digits. */
  function Group(s: Text): Byte
    requires |s| <= 8
  {
    NumberBound(s);
    Pow2Grows(|s|, 8);
    assert Pow2(8) == 256;
    Number(s)
  }

  function FromBin(data: Text): Text
    decreases |data|
  {
    var s := SkipSpace(data);
    var n := Run(s, 8);
    if n == 0 then [] else [Group(s[..n])] + FromBin(s[n..])
  }

  /** Reading back what was written gives the same bytes, for every string. */
  lemma {:induction false} FromBinToBin(data: Text)
    ensures FromBin(ToBin(data)) == data
  {
    if data != [] {
      var s := ToBin(data);
      assert s[..8] == Bits(data[0], 8) && s[8..] == ToBin(data[1..]);
      RunOfDigits(s, 8);
      assert SkipSpace(s) == s by {
        assert IsDigit(s[0]);
      }
      assert Pow2(8) == 256;
      NumberOfBits(data[0], 8);
      FromBinToBin(data[1..]);
    }
  }

  lemma {:induction false} RunOfDigits(s: Text, max: nat)
    requires Digits(s) && max <= |s|
    ensures Run(s, max) == max
  {
    if max > 0 {
      RunOfDigits(s[1..], max - 1);
    }
  }

  method WriteBits(data: Text) returns (result: Text)
    ensures result == ToBin(data)
  {
    result := [];
    assert data[0..] == data;
    for i := 0 to |data|
      invariant result + ToBin(data[i..]) == ToBin(data)
    {
      assert data[i..][1..] == data[i + 1..];
      result := result + Bits(data[i], 8);
    }
    assert data[|data|..] == [];
  }

  method SkipBlanks(data: Text, start: nat) returns (pos: nat)
    requires start <= |data|
    ensures start <= pos <= |data| && data[pos..] == SkipSpace(data[start..])
  {
    pos := start;
    while pos < |data| && IsSpace(data[pos])
      invariant start <= pos <= |data| && SkipSpace(data[pos..]) == SkipSpace(data[start..])
    {
      assert data[pos..][1..] == data[pos + 1..];
      pos := pos + 1;
    }
  }

  method TakeDigits(s: Text) returns (group: Text)
    ensures group == s[..Run(s, 8)]
  {
    group := [];
    var n := 0;
    assert s[0..] == s;
    while n < |s| && n < 8 && IsDigit(s[n])
      invariant n <= |s| && n <= 8 && group == s[..n]
      invariant Run(s, 8) == n + Run(s[n..], 8 - n)
    {
      assert s[n..][1..] == s[n + 1..];
      group := group + [s[n]];
      n := n + 1;
    }
  }

  /** One extraction: the digits taken and the position behind them. */
  method Extract(data: Text, start: nat) returns (group: Text, pos: nat)
    requires start <= |data|
    ensures start <= pos <= |data| && |group| <= 8
    ensures var s := SkipSpace(data[start..]);
            group == s[..Run(s, 8)] && data[pos..] == s[Run(s, 8)..]
  {
    pos := SkipBlanks(data, start);
    group := TakeDigits(data[pos..]);
    assert data[pos..][|group|..] == data[pos + |group|..];
    pos := pos + |group|;
  }

  /** What was extracted is the first byte of what was there, or the end of it. */
  lemma FromBinStep(rest: Text, group: Text, after: Text)
    requires var s := SkipSpace(rest); group == s[..Run(s, 8)] && after == s[Run(s, 8)..]
    ensures |group| <= 8 && FromBin(rest) == if group == [] then [] else [Group(group)] + FromBin(after)
  {
  }

  method ReadBits(data: Text) returns (output: Text)
    ensures output == FromBin(data)
  {
    output := [];
    assert data[0..] == data;
    var group, pos := Extract(data, 0);
    FromBinStep(data, group, data[pos..]);
    while group != []
      invariant pos <= |data| && |group| <= 8
      invariant FromBin(data) == output + (if group == [] then [] else [Group(group)] + FromBin(data[pos..]))
      decreases |data| - pos, |group|
    {
      ghost var rest := data[pos..];
      Regroup(output, [Group(group)], FromBin(rest));
      output := output + [Group(group)];
      group, pos := Extract(data, pos);
      FromBinStep(rest, group, data[pos..]);
    }
  }

  // ------------------------------------------------- which digit is which

  lemma HalfThenDivide(b: nat, p: nat)
    requires p > 0
    ensures b / 2 / p == b / (2 * p)
  {
    var q, r := b / 2 / p, b / 2 % p;
    assert b / 2 == p * q + r;
    assert b == (2 * p) * q + (2 * r + b % 2);
    Quotient(b, 2 * p, q, 2 * r + b % 2);
  }

  lemma Product(d: nat, x: int, y: int)
    ensures x <= y ==> d * x <= d * y
  {
    assert d * y == d * x + d * (y - x);
    assert x <= y ==> d * (y - x) >= 0;
  }

  lemma Quotient(b: nat, d: nat, q: nat, r: nat)
    requires 0 <= r < d && b == d * q + r
    ensures b / d == q
  {
    var k := b / d;
    assert b == d * k + b % d;
    Product(d, k + 1, q);
    Product(d, q + 1, k);
    assert d * (k + 1) == d * k + d && d * (q + 1) == d * q + d;
  }

  lemma {:induction false} BitOf(b: nat, n: nat, k: nat)
    requires k < n
    ensures Bits(b, n)[k] == ONE <==> b / Pow2(n - 1 - k) % 2 == 1
  {
    if k < n - 1 {
      BitOf(b / 2, n - 1, k);
      HalfThenDivide(b, Pow2(n - 2 - k));
    }
  }

  /** Every byte has its eight digits in its own place, the highest first. */
  lemma {:induction false} DigitAt(data: Text, i: nat, k: nat)
    requires i < |data| && k < 8
    ensures ToBin(data)[8 * i + k] == ONE <==> data[i] / Pow2(7 - k) % 2 == 1
  {
    BitOf(data[0], 8, k);
    if i > 0 {
      DigitAt(data[1..], i - 1, k);
    }
  }

  /** The digits of every byte, with something before each. */
  function Spaced(data: Text, blanks: seq<Text>): Text
    requires |blanks| == |data|
  {
    if data == [] then [] else blanks[0] + Bits(data[0], 8) + Spaced(data[1..], blanks[1..])
  }

  /** White space before a byte makes no difference. */
  lemma {:induction false} FromBinSpaced(data: Text, blanks: seq<Text>)
    requires |blanks| == |data| && forall i, j :: 0 <= i < |blanks| && 0 <= j < |blanks[i]| ==> IsSpace(blanks[i][j])
    ensures FromBin(Spaced(data, blanks)) == data
  {
    if data != [] {
      var bits, rest := Bits(data[0], 8), Spaced(data[1..], blanks[1..]);
      assert Pow2(8) == 256;
      NumberOfBits(data[0], 8);
      assert IsDigit(bits[0]);
      SkipsBlanks(blanks[0], bits + rest);
      assert blanks[0] + bits + rest == blanks[0] + (bits + rest);
      RunThen(bits, rest, 8);
      FromBinStep(Spaced(data, blanks), bits, rest);
      FromBinSpaced(data[1..], blanks[1..]);
    }
  }

  lemma {:induction false} SkipsBlanks(blanks: Text, rest: Text)
    requires (forall j :: 0 <= j < |blanks| ==> IsSpace(blanks[j])) && (rest == [] || !IsSpace(rest[0]))
    ensures SkipSpace(blanks + rest) == rest
  {
    if blanks != [] {
      assert (blanks + rest)[1..] == blanks[1..] + rest;
      SkipsBlanks(blanks[1..], rest);
    } else {
      assert blanks + rest == rest;
    }
  }

  lemma {:induction false} RunThen(digits: Text, rest: Text, max: nat)
    requires Digits(digits) && |digits| == max
    ensures Run(digits + rest, max) == max && (digits + rest)[..max] == digits && (digits + rest)[max..] == rest
  {
    if max > 0 {
      assert (digits + rest)[1..] == digits[1..] + rest;
      RunThen(digits[1..], rest, max - 1);
    }
  }
}
