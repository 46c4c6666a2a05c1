/**
  The glob matcher: two pointers and one saved backtrack point, against the
  recursive meaning of a mask.
 */
module Glob {
  import opened Bytes
  import opened CaseFold

  const STAR: Byte := 42
  const QUESTION: Byte := 63

  /** One mask byte, not a star, accepts one string byte. */
  predicate Accepts(m: seq<Byte>, w: Byte, c: Byte)
    requires |m| == 256
  {
    m[w] == m[c] || w == QUESTION
  }

  /** The meaning of a mask: a star stands for any run of bytes, a question mark for
      any one byte, and every other byte for itself up to case. */
  predicate Matches(m: seq<Byte>, str: seq<Byte>, mask: seq<Byte>)
    requires |m| == 256
    decreases |mask|, |str|
  {
    if mask == [] then str == []
    else if mask[0] == STAR then Matches(m, str, mask[1..]) || (str != [] && Matches(m, str[1..], mask))
    else str != [] && Accepts(m, mask[0], str[0]) && Matches(m, str[1..], mask[1..])
  }

  /** The byte at `i`, or the terminator. */
  function At(s: seq<Byte>, i: nat): Byte
    requires i <= |s|
  {
    if i < |s| then s[i] else 0
  }

  /** Some suffix of `str` from `from` on matches: what a saved backtrack point can still try. */
  ghost predicate SomeFrom(m: seq<Byte>, str: seq<Byte>, from: nat, mask: seq<Byte>)
    requires |m| == 256
  {
    exists k :: from <= k <= |str| && Matches(m, str[k..], mask)
  }

  lemma {:induction false} StarMeans(m: seq<Byte>, str: seq<Byte>, mask: seq<Byte>)
    requires |m| == 256 && mask != [] && mask[0] == STAR
    ensures Matches(m, str, mask) <==> SomeFrom(m, str, 0, mask[1..])
    decreases |str|
  {
    assert str[0..] == str;
    if str != [] {
      StarMeans(m, str[1..], mask);
      forall k | 0 <= k <= |str[1..]| ensures str[1..][k..] == str[k + 1..] {
      }
      if SomeFrom(m, str, 0, mask[1..]) {
        var k :| 0 <= k <= |str| && Matches(m, str[k..], mask[1..]);
        if k > 0 {
          assert str[1..][k - 1..] == str[k..];
        }
      }
      if SomeFrom(m, str[1..], 0, mask[1..]) {
        var k :| 0 <= k <= |str[1..]| && Matches(m, str[1..][k..], mask[1..]);
        assert Matches(m, str[k + 1..], mask[1..]);
      }
    }
  }

  /** A star also matches when some later suffix does. */
  lemma StarSkips(m: seq<Byte>, str: seq<Byte>, i: nat, j: nat, mask: seq<Byte>)
    requires |m| == 256 && mask != [] && mask[0] == STAR && i <= j <= |str|
    requires Matches(m, str[j..], mask)
    ensures Matches(m, str[i..], mask)
  {
    StarMeans(m, str[i..], mask);
    StarMeans(m, str[j..], mask);
    var k :| 0 <= k <= |str[j..]| && Matches(m, str[j..][k..], mask[1..]);
    assert str[j..][k..] == str[i..][j - i + k..];
  }

  /** A match of `mask[p..]` at `k`, whose first part up to `w` holds no star, leaves
      a match of `mask[w..]` behind that part. */
  lemma {:induction false} SkipPlain(m: seq<Byte>, str: seq<Byte>, k: nat, mask: seq<Byte>, p: nat, w: nat)
    requires |m| == 256 && k <= |str| && p <= w <= |mask|
    requires forall i :: p <= i < w ==> mask[i] != STAR
    requires Matches(m, str[k..], mask[p..])
    ensures k + (w - p) <= |str| && Matches(m, str[k + (w - p)..], mask[w..])
    decreases w - p
  {
    if p < w {
      assert mask[p..][0] == mask[p] && mask[p..][1..] == mask[p + 1..];
      assert str[k..][1..] == str[k + 1..];
      SkipPlain(m, str, k + 1, mask, p + 1, w);
    }
  }

  lemma Head(m: seq<Byte>, str: seq<Byte>, b: nat, mask: seq<Byte>, w: nat)
    requires CaseMap(m) && NulFree(str) && b < |str| && w <= |mask| && At(mask, w) != STAR
    ensures Matches(m, str[b..], mask[w..]) <==>
              (m[At(mask, w)] == m[str[b]] || At(mask, w) == QUESTION)
              && w < |mask| && Matches(m, str[b + 1..], mask[w + 1..])
    ensures (m[At(mask, w)] == m[str[b]] || At(mask, w) == QUESTION) ==> w < |mask|
  {
    assert str[b..][1..] == str[b + 1..];
    if w < |mask| {
      assert mask[w..][0] == mask[w] && mask[w..][1..] == mask[w + 1..];
    }
  }

  /** On reaching a star, the older backtrack point is no longer needed. */
  lemma Forget(m: seq<Byte>, str: seq<Byte>, base: nat, mask: seq<Byte>, w: nat, mp: nat, cp: nat)
    requires |m| == 256 && base < |str| && mp <= w < |mask| && mask[w] == STAR
    requires 0 < cp && base + 1 == cp + (w - mp)
    requires forall i :: mp <= i < w ==> mask[i] != STAR
    ensures SomeFrom(m, str, cp, mask[mp..]) ==> Matches(m, str[base..], mask[w..])
  {
    if SomeFrom(m, str, cp, mask[mp..]) {
      var k :| cp <= k <= |str| && Matches(m, str[k..], mask[mp..]);
      SkipPlain(m, str, k, mask, mp, w);
      StarSkips(m, str, base, k + (w - mp), mask[w..]);
    }
  }

  /** At the end of the string the saved point cannot succeed either. */
  lemma NothingSaved(m: seq<Byte>, str: seq<Byte>, mask: seq<Byte>, w: nat, mp: nat, cp: nat)
    requires |m| == 256 && mp <= w <= |mask| && 0 < cp && |str| + 1 == cp + (w - mp)
    requires forall i :: mp <= i < w ==> mask[i] != STAR
    ensures !SomeFrom(m, str, cp, mask[mp..])
  {
    forall k | cp <= k <= |str| ensures !Matches(m, str[k..], mask[mp..]) {
      if Matches(m, str[k..], mask[mp..]) {
        SkipPlain(m, str, k, mask, mp, w);
      }
    }
  }

  lemma LastStar(m: seq<Byte>, str: seq<Byte>, rest: seq<Byte>)
    requires |m| == 256 && rest == []
    ensures SomeFrom(m, str, 0, rest)
  {
    assert Matches(m, str[|str|..], rest);
  }

  lemma SplitFrom(m: seq<Byte>, str: seq<Byte>, b: nat, rest: seq<Byte>)
    requires |m| == 256 && b < |str|
    ensures SomeFrom(m, str[b..], 0, rest) <==> Matches(m, str[b..], rest) || SomeFrom(m, str, b + 1, rest)
  {
    var s := str[b..];
    assert s[0..] == s;
    if SomeFrom(m, s, 0, rest) {
      var k :| 0 <= k <= |s| && Matches(m, s[k..], rest);
      assert s[k..] == str[b + k..];
    }
    if SomeFrom(m, str, b + 1, rest) {
      var k :| b + 1 <= k <= |str| && Matches(m, str[k..], rest);
      assert s[k - b..] == str[k..];
    }
  }

  lemma Retry(m: seq<Byte>, str: seq<Byte>, cp: nat, rest: seq<Byte>)
    requires |m| == 256 && cp <= |str|
    ensures SomeFrom(m, str, cp, rest) <==> Matches(m, str[cp..], rest) || SomeFrom(m, str, cp + 1, rest)
  {
  }

  /** What the matcher can still try from where it stands: the rest of both strings, or any
      later start from the saved point of backtracking, if there is one. */
  ghost predicate Viable(m: seq<Byte>, str: seq<Byte>, b: nat, mask: seq<Byte>, w: nat, saved: bool, mp: nat, cp: nat)
    requires |m| == 256 && b <= |str| && w <= |mask| && mp <= |mask|
  {
    Matches(m, str[b..], mask[w..]) || (saved && SomeFrom(m, str, cp, mask[mp..]))
  }

  /** The bytes fit, and both pointers move on. */
  lemma OnFit(m: seq<Byte>, str: seq<Byte>, b: nat, mask: seq<Byte>, w: nat, saved: bool, mp: nat, cp: nat)
    requires CaseMap(m) && NulFree(str) && b < |str| && w <= |mask| && mp <= |mask| && At(mask, w) != STAR
    requires m[At(mask, w)] == m[str[b]] || At(mask, w) == QUESTION
    ensures w < |mask| && (Viable(m, str, b, mask, w, saved, mp, cp) <==> Viable(m, str, b + 1, mask, w + 1, saved, mp, cp))
  {
    Head(m, str, b, mask, w);
  }

  /** They do not, and the matcher goes back to the saved point, which moves on. */
  lemma OnMisfit(m: seq<Byte>, str: seq<Byte>, b: nat, mask: seq<Byte>, w: nat, mp: nat, cp: nat)
    requires CaseMap(m) && NulFree(str) && b < |str| && w <= |mask| && mp <= |mask| && cp <= |str| && At(mask, w) != STAR
    requires m[At(mask, w)] != m[str[b]] && At(mask, w) != QUESTION
    ensures Viable(m, str, b, mask, w, true, mp, cp) <==> Viable(m, str, cp, mask, mp, true, mp, cp + 1)
  {
    Head(m, str, b, mask, w);
    Retry(m, str, cp, mask[mp..]);
  }

  /** A star matches everything if it is the last; otherwise what follows it has to match
      here or later. Whatever an earlier point of backtracking could still try, the
      point at this star can try as well. */
  lemma OnStar(m: seq<Byte>, str: seq<Byte>, b: nat, mask: seq<Byte>, w: nat, saved: bool, mp: nat, cp: nat)
    requires |m| == 256 && NulFree(mask) && b < |str| && w < |mask| && mask[w] == STAR && mp <= w
    requires saved ==> 0 < cp && b + 1 == cp + (w - mp) && forall i :: mp <= i < w ==> mask[i] != STAR
    ensures Viable(m, str, b, mask, w, saved, mp, cp) <==> Viable(m, str, b, mask, w + 1, true, w + 1, b + 1)
    ensures At(mask, w + 1) == 0 ==> Matches(m, str[b..], mask[w..])
  {
    if saved {
      Forget(m, str, b, mask, w, mp, cp);
    }
    assert mask[w..][1..] == mask[w + 1..];
    StarMeans(m, str[b..], mask[w..]);
    SplitFrom(m, str, b, mask[w + 1..]);
    if w + 1 == |mask| {
      LastStar(m, str[b..], mask[w + 1..]);
    }
  }

  /** The part of both strings before the first star: it has to match byte by byte. */
  method MatchPlain(str: seq<Byte>, mask: seq<Byte>, m: seq<Byte>) returns (ok: bool, base: nat)
    requires NulFree(str) && NulFree(mask) && CaseMap(m)
    ensures ok ==> base <= |str| && base <= |mask| && (At(str, base) != 0 ==> At(mask, base) == STAR)
    ensures Matches(m, str, mask) <==> ok && base <= |str| && base <= |mask| && Matches(m, str[base..], mask[base..])
  {
    base := 0;
    assert str[0..] == str && mask[0..] == mask;
    while At(str, base) != 0 && At(mask, base) != STAR
      invariant 0 <= base <= |str| && base <= |mask|
      invariant Matches(m, str, mask) <==> Matches(m, str[base..], mask[base..])
      decreases |str| - base
    {
      Head(m, str, base, mask, base);
      if m[At(mask, base)] != m[At(str, base)] && At(mask, base) != QUESTION {
        return false, base;
      }
      base := base + 1;
    }
    ok := true;
  }

  /** What is left of a mask when the string is used up may be stars, and nothing else. */
  method MatchEnd(mask: seq<Byte>, from: nat, m: seq<Byte>) returns (r: bool)
    requires from <= |mask| && NulFree(mask) && |m| == 256
    ensures r <==> Matches(m, [], mask[from..])
  {
    var wildcard: nat := from;
    while At(mask, wildcard) == STAR
      invariant wildcard <= |mask|
      invariant Matches(m, [], mask[from..]) <==> Matches(m, [], mask[wildcard..])
      decreases |mask| - wildcard
    {
      assert mask[wildcard..][1..] == mask[wildcard + 1..];
      wildcard := wildcard + 1;
    }
    return At(mask, wildcard) == 0;
  }

  /** The matcher decides exactly the recursive meaning. `mp` and `cp` are the saved
      backtrack point; there is none until the first star. */
  method MatchInternal(str: seq<Byte>, mask: seq<Byte>, m: seq<Byte>) returns (r: bool)
    requires NulFree(str) && NulFree(mask) && CaseMap(m)
    ensures r <==> Matches(m, str, mask)
  {
    hide Matches, SomeFrom;
    var ok: bool, base: nat := MatchPlain(str, mask, m);
    if !ok {
      return false;
    }
    var wildcard: nat := base;
    var saved: bool, mp: nat, cp: nat := false, 0, 0;
    while At(str, base) != 0
      invariant base <= |str| && wildcard <= |mask| && mp <= |mask| && cp <= |str| + 1
      invariant !saved ==> mp == 0 && (base < |str| ==> At(mask, wildcard) == STAR)
      invariant saved ==> 0 < mp <= wildcard && 0 < cp <= |str| + 1 && cp - 1 <= base && base - (cp - 1) == wildcard - mp
      invariant saved ==> mp < |mask|
      invariant saved ==> forall i :: mp <= i < wildcard ==> mask[i] != STAR
      invariant Matches(m, str, mask) <==> Viable(m, str, base, mask, wildcard, saved, mp, cp)
      decreases |mask| - mp, |str| + 1 - cp, |str| - base
    {
      if At(mask, wildcard) == STAR {
        OnStar(m, str, base, mask, wildcard, saved, mp, cp);
        wildcard := wildcard + 1;
        if At(mask, wildcard) == 0 {
          return true;
        }
        saved, mp, cp := true, wildcard, base + 1;
      } else {
        if m[At(mask, wildcard)] == m[At(str, base)] || At(mask, wildcard) == QUESTION {
          OnFit(m, str, base, mask, wildcard, saved, mp, cp);
          wildcard := wildcard + 1;
          base := base + 1;
        } else {
          OnMisfit(m, str, base, mask, wildcard, mp, cp);
          wildcard := mp;
          base := cp;
          cp := cp + 1;
        }
      }
    }

    if saved {
      NothingSaved(m, str, mask, wildcard, mp, cp);
    }
    assert str[base..] == [];
    r := MatchEnd(mask, wildcard, m);
  }

  // ------------------------------------------------- the meaning in one formula

  /** The mask cuts the string into one piece per mask byte: any piece for a star, one byte
      for a question mark, and one byte of the same fold for every other byte. */
  ghost predicate Cuts(m: seq<Byte>, str: seq<Byte>, mask: seq<Byte>, at: seq<nat>)
    requires |m| == 256
  {
    && |at| == |mask| + 1 && at[0] == 0 && at[|mask|] == |str|
    && forall j :: 0 <= j < |mask| ==> PieceFits(m, str, mask[j], at[j], at[j + 1])
  }

  ghost predicate PieceFits(m: seq<Byte>, str: seq<Byte>, w: Byte, from: nat, to: nat)
    requires |m| == 256
  {
    && from <= to <= |str|
    && (w != STAR ==> to == from + 1 && (w == QUESTION || m[str[from]] == m[w]))
  }

  /** A mask matches exactly the strings it can cut so. */
  lemma MatchesExactly(m: seq<Byte>, str: seq<Byte>, mask: seq<Byte>)
    requires |m| == 256
    ensures Matches(m, str, mask) <==> exists at: seq<nat> :: Cuts(m, str, mask, at)
  {
    if Matches(m, str, mask) {
      var at := CutOf(m, str, mask);
    }
    if at: seq<nat> :| Cuts(m, str, mask, at) {
      CutMatches(m, str, mask, at);
    }
  }

  lemma {:induction false} CutOf(m: seq<Byte>, str: seq<Byte>, mask: seq<Byte>) returns (at: seq<nat>)
    requires |m| == 256 && Matches(m, str, mask)
    ensures Cuts(m, str, mask, at)
    decreases |mask|
  {
    if mask == [] {
      return [0];
    }
    var k: nat := 1;
    if mask[0] == STAR {
      StarMeans(m, str, mask);
      k :| 0 <= k <= |str| && Matches(m, str[k..], mask[1..]);
    }
    var rest := CutOf(m, str[k..], mask[1..]);
    at := [0] + seq(|rest|, j requires 0 <= j < |rest| => k + rest[j]);
    forall j | 0 <= j < |mask| ensures PieceFits(m, str, mask[j], at[j], at[j + 1]) {
      if j > 0 {
        assert PieceFits(m, str[k..], mask[1..][j - 1], rest[j - 1], rest[j]);
      }
    }
  }

  lemma {:induction false} CutMatches(m: seq<Byte>, str: seq<Byte>, mask: seq<Byte>, at: seq<nat>)
    requires |m| == 256 && Cuts(m, str, mask, at)
    ensures Matches(m, str, mask)
    decreases |mask|
  {
    if mask != [] {
      assert PieceFits(m, str, mask[0], at[0], at[1]);
      CutsRise(m, str, mask, at, 1);
      var k := at[1];
      var rest := seq(|mask|, j requires 0 <= j < |mask| => if at[j + 1] >= k then at[j + 1] - k else 0);
      forall j | 0 <= j < |mask[1..]| ensures PieceFits(m, str[k..], mask[1..][j], rest[j], rest[j + 1]) {
        assert PieceFits(m, str, mask[j + 1], at[j + 1], at[j + 2]);
        CutsRise(m, str, mask, at, j + 1);
        CutsRise(m, str, mask, at, j + 2);
      }
      CutMatches(m, str[k..], mask[1..], rest);
      if mask[0] == STAR {
        StarMeans(m, str, mask);
      }
    }
  }

  lemma {:induction false} CutsRise(m: seq<Byte>, str: seq<Byte>, mask: seq<Byte>, at: seq<nat>, j: nat)
    requires |m| == 256 && Cuts(m, str, mask, at) && 1 <= j <= |mask|
    ensures at[1] <= at[j] <= |str|
  {
    assert PieceFits(m, str, mask[j - 1], at[j - 1], at[j]);
    if j > 1 {
      CutsRise(m, str, mask, at, j - 1);
    }
  }
}
