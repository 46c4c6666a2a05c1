/** Bytes, and strings of bytes, as the C++ code sees them. */
module Bytes {
  type Byte = b: int | 0 <= b < 256 witness 0

  type Text = seq<Byte>

  const COLON: Byte := 58
  const SLASH: Byte := 47

  /** White space as isspace and stream extraction know it. */
  predicate IsSpace(c: Byte) { c == 32 || 9 <= c <= 13 }

  function Pow2(n: nat): (p: nat)
    ensures p > 0
  {
    if n == 0 then 1 else 2 * Pow2(n - 1)
  }

  lemma {:induction false} Pow2Grows(a: nat, b: nat)
    requires a <= b
    ensures Pow2(a) <= Pow2(b)
  {
    if a < b {
      Pow2Grows(a, b - 1);
    }
  }

  ghost predicate NulFree(s: Text) {
    forall i :: 0 <= i < |s| ==> s[i] != 0
  }

  /** The part of a string that C functions see: up to its first NUL. */
  function CString(s: Text): (r: Text)
    ensures NulFree(r) && r <= s
  {
    if s == [] || s[0] == 0 then [] else [s[0]] + CString(s[1..])
  }

  lemma {:induction false} CStringWhole(s: Text)
    requires NulFree(s)
    ensures CString(s) == s
  {
    if s != [] {
      assert NulFree(s[1..]) by {
        forall i | 0 <= i < |s[1..]| ensures s[1..][i] != 0 {
          assert s[1..][i] == s[i + 1];
        }
      }
      CStringWhole(s[1..]);
    }
  }
}
