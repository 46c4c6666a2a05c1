/**
  Case-insensitive comparison of strings: the order used by the flat containers, the
  equality and the hash used by the hash tables.  All three go through one table of
  256 bytes, `m`, chosen when the server starts.
 */
module CaseFold {
  import opened Bytes

  /** A case map: 256 entries, of which only the one for NUL is NUL. */
  ghost predicate CaseMap(m: seq<Byte>) {
    |m| == 256 && forall c: Byte :: m[c] == 0 <==> c == 0
  }

  /** A string with every byte replaced by its table entry. */
  function Fold(m: seq<Byte>, s: Text): (r: Text)
    requires |m| == 256
    ensures |r| == |s| && forall i :: 0 <= i < |s| ==> r[i] == m[s[i]]
  {
    seq(|s|, i requires 0 <= i < |s| => m[s[i]])
  }

  // ------------------------------------------------- the order

  /** The lexicographic order, a proper prefix coming first. */
  predicate Lex(a: Text, b: Text) {
    b != [] && (a == [] || a[0] < b[0] || (a[0] == b[0] && Lex(a[1..], b[1..])))
  }

  /** Where two strings that share their first `n` bytes differ next decides their order. */
  lemma {:induction false} LexAt(a: Text, b: Text, n: nat)
    requires n <= |a| && n <= |b| && a[..n] == b[..n]
    ensures Lex(a, b) == Lex(a[n..], b[n..])
  {
    if n > 0 {
      assert a[0] == a[..n][0] == b[..n][0] == b[0];
      assert a[1..][..n - 1] == a[..n][1..] && b[1..][..n - 1] == b[..n][1..];
      LexAt(a[1..], b[1..], n - 1);
      assert a[1..][n - 1..] == a[n..] && b[1..][n - 1..] == b[n..];
    } else {
      assert a[0..] == a && b[0..] == b;
    }
  }

  /** The comparison loop of the order decides the lexicographic order of the folds. */
  method InsensitiveSwo(m: seq<Byte>, a: Text, b: Text) returns (less: bool)
    requires |m| == 256
    ensures less == Lex(Fold(m, a), Fold(m, b))
  {
    var maxsize := if |a| < |b| then |a| else |b|;
    ghost var x, y := Fold(m, a), Fold(m, b);
    for i := 0 to maxsize
      invariant x[..i] == y[..i]
    {
      LexAt(x, y, i);
      var A, B := m[a[i]], m[b[i]];
      assert x[i..][0] == A && y[i..][0] == B;
      if A > B {
        return false;
      } else if A < B {
        return true;
      }
    }
    LexAt(x, y, maxsize);
    less := |a| < |b|;
  }

  lemma {:induction false} LexTransitive(a: Text, b: Text, c: Text)
    requires Lex(a, b) && Lex(b, c)
    ensures Lex(a, c)
  {
    if a != [] && a[0] == b[0] && b[0] == c[0] {
      LexTransitive(a[1..], b[1..], c[1..]);
    }
  }

  lemma {:induction false} LexTotal(a: Text, b: Text)
    ensures !Lex(a, b) && !Lex(b, a) <==> a == b
  {
    if a != [] && b != [] && a[0] == b[0] {
      LexTotal(a[1..], b[1..]);
      assert a == [a[0]] + a[1..] && b == [b[0]] + b[1..];
    } else if a == b {
      assert a == [] && b == [];
    }
  }

  /** The order on strings is a strict weak order, and two strings are equivalent under
      it exactly if their folds are equal. */
  lemma SwoIsStrictWeak(m: seq<Byte>, a: Text, b: Text, c: Text)
    requires |m| == 256
    ensures !Lex(Fold(m, a), Fold(m, a))
    ensures Lex(Fold(m, a), Fold(m, b)) && Lex(Fold(m, b), Fold(m, c)) ==> Lex(Fold(m, a), Fold(m, c))
    ensures !Lex(Fold(m, a), Fold(m, b)) && !Lex(Fold(m, b), Fold(m, a)) <==> Fold(m, a) == Fold(m, b)
  {
    var x, y, z := Fold(m, a), Fold(m, b), Fold(m, c);
    LexTotal(x, x);
    LexTotal(x, y);
    if Lex(x, y) && Lex(y, z) {
      LexTransitive(x, y, z);
    }
  }

  // ------------------------------------------------- equality

  /** `equals` walks two NUL-terminated strings. */
  method Equals(m: seq<Byte>, s1: Text, s2: Text) returns (r: bool)
    requires CaseMap(m)
    ensures r <==> Fold(m, CString(s1)) == Fold(m, CString(s2))
  {
    var n1, n2 := CString(s1), CString(s2);
    var i := 0;
    while i < |n1| && i < |n2|
      invariant i <= |n1| && i <= |n2|
      invariant forall j :: 0 <= j < i ==> m[n1[j]] == m[n2[j]]
    {
      if m[n1[i]] != m[n2[i]] {
        assert Fold(m, n1)[i] != Fold(m, n2)[i];
        return false;
      }
      i := i + 1;
    }
    var end1: Byte := if i < |n1| then n1[i] else 0;
    var end2: Byte := if i < |n2| then n2[i] else 0;
    r := m[end1] == m[end2];
  }

  /** On strings without a NUL, `equals` is the equivalence of the order. */
  lemma EqualsIsEquivalence(m: seq<Byte>, a: Text, b: Text)
    requires |m| == 256 && NulFree(a) && NulFree(b)
    ensures Fold(m, CString(a)) == Fold(m, CString(b))
            <==> !Lex(Fold(m, a), Fold(m, b)) && !Lex(Fold(m, b), Fold(m, a))
  {
    CStringWhole(a);
    CStringWhole(b);
    LexTotal(Fold(m, a), Fold(m, b));
  }

  // ------------------------------------------------- the hash

  const WORD: nat := 0x1_0000_0000_0000_0000

  /** The hash of a string after `n` of its bytes, in 64-bit arithmetic. */
  function HashOf(m: seq<Byte>, s: Text): (t: nat)
    requires |m| == 256
    ensures t < WORD
  {
    if s == [] then 0 else (5 * HashOf(m, s[..|s| - 1]) + m[s[|s| - 1]]) % WORD
  }

  method Insensitive(m: seq<Byte>, s: Text) returns (t: nat)
    requires |m| == 256
    ensures t == HashOf(m, s)
  {
    t := 0;
    for i := 0 to |s|
      invariant t == HashOf(m, s[..i])
    {
      assert s[..i + 1][..i] == s[..i];
      t := (5 * t + m[s[i]]) % WORD;
    }
    assert s[..|s|] == s;
  }

  lemma {:induction false} HashRespectsFold(m: seq<Byte>, a: Text, b: Text)
    requires |m| == 256 && Fold(m, a) == Fold(m, b)
    ensures HashOf(m, a) == HashOf(m, b)
  {
    assert |a| == |Fold(m, a)| == |b|;
    if a != [] {
      var last := |a| - 1;
      assert m[a[last]] == Fold(m, a)[last] == m[b[last]];
      assert Fold(m, a[..last]) == Fold(m, a)[..last] == Fold(m, b[..last]);
      HashRespectsFold(m, a[..last], b[..last]);
    }
  }

  /** Equal strings hash alike, as the hash tables need, if neither holds a NUL byte. */
  lemma EqualStringsHashAlike(m: seq<Byte>, a: Text, b: Text)
    requires |m| == 256 && NulFree(a) && NulFree(b)
    requires Fold(m, CString(a)) == Fold(m, CString(b))
    ensures HashOf(m, a) == HashOf(m, b)
  {
    CStringWhole(a);
    CStringWhole(b);
    HashRespectsFold(m, a, b);
  }

  /** With a NUL byte they need not: `equals` stops at the NUL and the hash does not. Every
      string has an equal one that hashes differently. */
  lemma NulBreaksHash(m: seq<Byte>, s: Text) returns (t: Text)
    requires CaseMap(m)
    ensures Fold(m, CString(t)) == Fold(m, CString(s)) && HashOf(m, t) != HashOf(m, s)
  {
    HashAppend(m, s + [0], 0);
    HashAppend(m, s + [0], 1);
    BehindNul(s, [0]);
    BehindNul(s, [1]);
    t := if HashOf(m, s + [0] + [0]) != HashOf(m, s) then s + [0] + [0] else s + [0] + [1];
  }

  lemma HashAppend(m: seq<Byte>, s: Text, c: Byte)
    requires |m| == 256
    ensures HashOf(m, s + [c]) == (5 * HashOf(m, s) + m[c]) % WORD
  {
    assert (s + [c])[..|s|] == s;
  }

  /** What lies behind a NUL is not seen. */
  lemma {:induction false} BehindNul(s: Text, tail: Text)
    ensures CString(s + [0] + tail) == CString(s)
  {
    if s == [] {
      assert ([] + [0] + tail)[0] == 0;
    } else {
      assert (s + [0] + tail)[1..] == s[1..] + [0] + tail;
      BehindNul(s[1..], tail);
    }
  }

  /** The order in other words: a proper prefix comes first, and otherwise the strings differ
      somewhere for the first time, where the smaller has the smaller byte. */
  lemma {:induction false} LexMeans(a: Text, b: Text)
    ensures Lex(a, b) <==> a < b || exists n :: 0 <= n < |a| && n < |b| && a[..n] == b[..n] && a[n] < b[n]
  {
    if n :| 0 <= n < |a| && n < |b| && a[..n] == b[..n] && a[n] < b[n] {
      LexAt(a, b, n);
    }
    if a < b {
      LexAt(a, b, |a|);
      assert b[..|a|] == a[..|a|];
    }
    if Lex(a, b) {
      FirstDifference(a, b);
    }
  }

  lemma {:induction false} FirstDifference(a: Text, b: Text)
    requires Lex(a, b)
    ensures a < b || exists n :: 0 <= n < |a| && n < |b| && a[..n] == b[..n] && a[n] < b[n]
  {
    if a == [] {
      assert a < b;
    } else if a[0] < b[0] {
      assert a[..0] == b[..0];
    } else {
      FirstDifference(a[1..], b[1..]);
      if a[1..] < b[1..] {
        assert b == [b[0]] + b[1..] && a == [a[0]] + a[1..];
        assert a < b;
      } else {
        var n :| 0 <= n < |a[1..]| && n < |b[1..]| && a[1..][..n] == b[1..][..n] && a[1..][n] < b[1..][n];
        assert a[..n + 1] == [a[0]] + a[1..][..n] && b[..n + 1] == [b[0]] + b[1..][..n];
        assert a[n + 1] < b[n + 1];
      }
    }
  }

  // ------------------------------------------------- what the hash is

  function Pow5(n: nat): nat {
    if n == 0 then 1 else 5 * Pow5(n - 1)
  }

  /** The folded bytes as the coefficients of a polynomial in 5, the first being the highest. */
  function Polynomial(m: seq<Byte>, s: Text): nat
    requires |m| == 256
  {
    if s == [] then 0 else Times(m[s[0]], Pow5(|s| - 1)) + Polynomial(m, s[1..])
  }

  function Times(a: nat, b: nat): nat {
    a * b
  }

  lemma {:induction false} PolynomialAppend(m: seq<Byte>, s: Text, c: Byte)
    requires |m| == 256
    ensures Polynomial(m, s + [c]) == 5 * Polynomial(m, s) + m[c]
  {
    if s != [] {
      assert (s + [c])[1..] == s[1..] + [c];
      PolynomialAppend(m, s[1..], c);
      assert Times(m[s[0]], 5 * Pow5(|s| - 1)) == 5 * Times(m[s[0]], Pow5(|s| - 1));
    } else {
      assert (s + [c])[1..] == [];
      assert Pow5(0) == 1;
    }
  }

  lemma SameRemainder(a: nat, b: nat)
    ensures (5 * (a % WORD) + b) % WORD == (5 * a + b) % WORD
  {
    var q := a / WORD;
    assert 5 * a + b == (5 * q) * WORD + (5 * (a % WORD) + b);
    AddMultiple(5 * q, 5 * (a % WORD) + b);
  }

  lemma {:induction false} AddMultiple(k: nat, r: nat)
    ensures (k * WORD + r) % WORD == r % WORD
  {
    if k > 0 {
      AddMultiple(k - 1, r);
      assert k * WORD + r == ((k - 1) * WORD + r) + WORD;
    }
  }

  /** The hash is the value of that polynomial in 64-bit arithmetic. */
  lemma {:induction false} HashIsPolynomial(m: seq<Byte>, s: Text)
    requires |m| == 256
    ensures HashOf(m, s) == Polynomial(m, s) % WORD
  {
    if s != [] {
      var last := |s| - 1;
      HashIsPolynomial(m, s[..last]);
      assert s == s[..last] + [s[last]];
      PolynomialAppend(m, s[..last], s[last]);
      SameRemainder(Polynomial(m, s[..last]), m[s[last]]);
    }
  }
}
