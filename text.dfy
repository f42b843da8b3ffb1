/**
 * The two `java.lang.String` operations the transport applies to its URL:
 * `startsWith` and `replace(CharSequence, CharSequence)`, which replaces every
 * non-overlapping occurrence of the target, scanning from left to right.
 */
module Text {

  /** `s.startsWith(p)`. */
  predicate StartsWith(s: string, p: string) {
    |p| <= |s| && s[..|p|] == p
  }

  /** `s.endsWith(suffix)`. */
  predicate EndsWith(s: string, suffix: string) {
    |suffix| <= |s| && s[|s| - |suffix|..] == suffix
  }

  /** `s.contains(p)`: `p` occurs at some position of `s`. */
  predicate Contains(s: string, p: string)
    decreases |s|
  {
    StartsWith(s, p) || (|s| > 0 && Contains(s[1..], p))
  }

  /** `s.replace(p, r)` for a non-empty target `p`. */
  function ReplaceAll(s: string, p: string, r: string): string
    requires |p| > 0
    decreases |s|
  {
    if |s| < |p| then s
    else if s[..|p|] == p then r + ReplaceAll(s[|p|..], p, r)
    else [s[0]] + ReplaceAll(s[1..], p, r)
  }

  lemma {:induction false} ContainsDrop(s: string, p: string, k: nat)
    requires k <= |s|
    ensures Contains(s[k..], p) ==> Contains(s, p)
    decreases k
  {
    if k > 0 {
      assert s[1..][k - 1..] == s[k..];
      ContainsDrop(s[1..], p, k - 1);
    }
  }

  /** A string that lacks some character of `p` cannot contain `p`. */
  lemma {:induction false} MissingCharNotContained(s: string, p: string, c: char)
    requires c in p && c !in s
    ensures !Contains(s, p)
    decreases |s|
  {
    StartsWithChars(s, p);
    if |s| > 0 {
      MissingCharNotContained(s[1..], p, c);
    }
  }

  lemma StartsWithChars(s: string, p: string)
    ensures StartsWith(s, p) ==> forall c :: c in p ==> c in s
  {
    if StartsWith(s, p) {
      forall c | c in p
        ensures c in s
      {
        var k :| 0 <= k < |p| && p[k] == c;
        assert s[k] == s[..|p|][k];
      }
    }
  }

  /** Where the target does not occur, `replace` leaves the string as it is. */
  lemma {:induction false} ReplaceAllAbsent(s: string, p: string, r: string)
    requires |p| > 0 && !Contains(s, p)
    ensures ReplaceAll(s, p, r) == s
    decreases |s|
  {
    if |s| >= |p| {
      ReplaceAllAbsent(s[1..], p, r);
      assert [s[0]] + s[1..] == s;
    }
  }

  /** A first character that cannot begin the target is kept, and the rest is rewritten. */
  lemma ReplaceAllCons(c: char, s: string, p: string, r: string)
    requires |p| > 0 && c != p[0]
    ensures ReplaceAll([c] + s, p, r) == [c] + ReplaceAll(s, p, r)
  {
    assert ([c] + s)[1..] == s;
    if |[c] + s| >= |p| {
      assert ([c] + s)[..|p|][0] != p[0];
    }
  }

  /**
   * A string `w` whose first character does not occur in the target splits the
   * rewrite: no occurrence can straddle the boundary before `w`.
   */
  lemma {:induction false} ReplaceAllSplit(x: string, w: string, p: string, r: string)
    requires |p| > 0 && |w| > 0 && w[0] !in p
    ensures ReplaceAll(x + w, p, r) == ReplaceAll(x, p, r) + ReplaceAll(w, p, r)
    decreases |x|
  {
    if x == [] {
      assert x + w == w;
    } else if StartsWith(x, p) {
      ReplaceAllSplitMatch(x, w, p, r);
    } else {
      ReplaceAllSplitSkip(x, w, p, r);
    }
  }

  lemma {:induction false} ReplaceAllSplitMatch(x: string, w: string, p: string, r: string)
    requires |p| > 0 && |w| > 0 && w[0] !in p && StartsWith(x, p)
    ensures ReplaceAll(x + w, p, r) == ReplaceAll(x, p, r) + ReplaceAll(w, p, r)
    decreases |x|, 0
  {
    var xw := x + w;
    var rest := x[|p|..];
    assert xw[..|p|] == x[..|p|];
    assert xw[|p|..] == rest + w;
    ReplaceAllSplit(rest, w, p, r);
  }

  lemma {:induction false} ReplaceAllSplitSkip(x: string, w: string, p: string, r: string)
    requires |p| > 0 && |w| > 0 && w[0] !in p && |x| > 0 && !StartsWith(x, p)
    ensures ReplaceAll(x + w, p, r) == ReplaceAll(x, p, r) + ReplaceAll(w, p, r)
    decreases |x|, 0
  {
    var xw := x + w;
    var tail := x[1..];
    if |xw| < |p| {
      ReplaceAllShort(xw, p, r);
      ReplaceAllShort(x, p, r);
      ReplaceAllShort(w, p, r);
    } else {
      StartsWithAppend(x, w, p);
      assert xw[0] == x[0] && xw[1..] == tail + w;
      assert ReplaceAll(xw, p, r) == [x[0]] + ReplaceAll(tail + w, p, r);
      ReplaceAllSplit(tail, w, p, r);
      if |x| < |p| {
        ReplaceAllShort(x, p, r);
        ReplaceAllShort(tail, p, r);
        assert [x[0]] + tail == x;
      } else {
        assert ReplaceAll(x, p, r) == [x[0]] + ReplaceAll(tail, p, r);
      }
    }
  }

  lemma ReplaceAllShort(s: string, p: string, r: string)
    requires 0 < |p| && |s| < |p|
    ensures ReplaceAll(s, p, r) == s
  {
  }

  /** Appending `w` never changes whether a string starts with `p`, when `w[0]` is not in `p`. */
  lemma StartsWithAppend(x: string, w: string, p: string)
    requires |w| > 0 && w[0] !in p
    ensures StartsWith(x + w, p) <==> StartsWith(x, p)
  {
    if |x| >= |p| {
      assert (x + w)[..|p|] == x[..|p|];
    } else if |p| <= |x + w| {
      assert (x + w)[..|p|][|x|] == w[0];
    }
  }

  lemma StartsWithCons(s: string, q: string)
    requires |s| > 0 && |q| > 0
    ensures s[0] == q[0] && StartsWith(s[1..], q[1..]) ==> StartsWith(s, q)
  {
    if s[0] == q[0] && StartsWith(s[1..], q[1..]) {
      assert s[..|q|] == [s[0]] + s[1..][..|q| - 1];
      assert q == [q[0]] + q[1..];
    }
  }

  /**
   * Every replacement begins with `r[0]`, so a prefix without that character
   * in the rewritten string was already a prefix of the original.
   */
  lemma {:induction false} PrefixSurvives(u: string, p: string, r: string, q: string)
    requires |p| > 0 && |r| > 0 && r[0] !in q
    ensures StartsWith(ReplaceAll(u, p, r), q) ==> StartsWith(u, q)
    decreases |u|
  {
    if |u| >= |p| && u[..|p|] != p && |q| > 0 {
      var t := ReplaceAll(u[1..], p, r);
      assert ReplaceAll(u, p, r) == [u[0]] + t;
      assert ([u[0]] + t)[1..] == t;
      PrefixSurvives(u[1..], p, r, q[1..]);
      StartsWithCons(u, q);
      if StartsWith([u[0]] + t, q) {
        assert ([u[0]] + t)[1..][..|q| - 1] == ([u[0]] + t)[..|q|][1..];
      }
    } else if |u| >= |p| && u[..|p|] == p && |q| > 0 {
      assert (r + ReplaceAll(u[|p|..], p, r))[0] == r[0];
    }
  }

  /**
   * The rewrite loses nothing: when the original has no occurrence of the
   * replacement `r`, and `r` is not a border of itself at its first
   * character, replacing `r` back by `p` recovers the original.
   */
  lemma {:induction false} ReplaceAllUndo(s: string, p: string, r: string)
    requires |p| > 0 && |r| > 0 && r[0] !in r[1..]
    requires !Contains(s, r)
    ensures ReplaceAll(ReplaceAll(s, p, r), r, p) == s
    decreases |s|
  {
    if |s| < |p| {
      ReplaceAllAbsent(s, r, p);
    } else if s[..|p|] == p {
      var t := ReplaceAll(s[|p|..], p, r);
      ContainsDrop(s, r, |p|);
      ReplaceAllUndo(s[|p|..], p, r);
      assert (r + t)[..|r|] == r;
      assert (r + t)[|r|..] == t;
      assert p + s[|p|..] == s;
    } else {
      var c := s[0];
      var t := ReplaceAll(s[1..], p, r);
      assert ReplaceAll(s, p, r) == [c] + t;
      ContainsDrop(s, r, 1);
      ReplaceAllUndo(s[1..], p, r);
      PrefixSurvives(s[1..], p, r, r[1..]);
      StartsWithCons(s, r);
      StartsWithCons([c] + t, r);
      assert ([c] + t)[0] == c && ([c] + t)[1..] == t;
      assert [c] + s[1..] == s;
      if |[c] + t| < |r| {
        ReplaceAllShort(t, r, p);
      }
    }
  }

  lemma StartsWithExtend(a: string, b: string, p: string)
    requires StartsWith(a, p)
    ensures StartsWith(a + b, p)
  {
    assert (a + b)[..|p|] == a[..|p|];
  }

  lemma EndsWithAppend(a: string, b: string)
    ensures EndsWith(a + b, b)
  {
    assert (a + b)[|a|..] == b;
  }

  lemma EndsWithPrepend(a: string, b: string, c: string)
    requires EndsWith(b, c)
    ensures EndsWith(a + b, c)
  {
    assert (a + b)[|a + b| - |c|..] == b[|b| - |c|..];
  }

  /** A string shorter than `p` cannot contain it. */
  lemma {:induction false} ShortNotContained(s: string, p: string)
    requires |s| < |p|
    ensures !Contains(s, p)
    decreases |s|
  {
    if |s| > 0 {
      ShortNotContained(s[1..], p);
    }
  }

  /** A front `x` without `p[0]` cannot begin an occurrence of `p`, so `x + t` contains `p` only if `t` does. */
  lemma {:induction false} FrontNotContained(x: string, t: string, p: string)
    requires |p| > 0 && p[0] !in x && !Contains(t, p)
    ensures !Contains(x + t, p)
    decreases |x|
  {
    if x == [] {
      assert x + t == t;
    } else {
      var xt := x + t;
      assert xt[0] == x[0] && xt[1..] == x[1..] + t;
      if |p| <= |xt| {
        assert xt[..|p|][0] == x[0];
      }
      FrontNotContained(x[1..], t, p);
    }
  }

  /**
   * `replace` leaves no occurrence of the target behind, when the replacement
   * and the target share neither first character: every occurrence is replaced,
   * and no new one can form across a replacement.
   */
  lemma {:induction false} ReplaceAllRemoves(s: string, p: string, r: string)
    requires |p| > 0 && |r| > 0 && r[0] !in p && p[0] !in r
    ensures !Contains(ReplaceAll(s, p, r), p)
    decreases |s|
  {
    if |s| < |p| {
      ShortNotContained(s, p);
    } else if s[..|p|] == p {
      ReplaceAllRemoves(s[|p|..], p, r);
      FrontNotContained(r, ReplaceAll(s[|p|..], p, r), p);
    } else {
      var t := ReplaceAll(s[1..], p, r);
      ReplaceAllRemoves(s[1..], p, r);
      assert r[0] !in p[1..];
      PrefixSurvives(s[1..], p, r, p[1..]);
      StartsWithCons(s, p);
      var u := [s[0]] + t;
      assert u[0] == s[0] && u[1..] == t;
      if |p| <= |u| {
        assert u[..|p|] == [u[0]] + u[1..][..|p| - 1];
        assert p == [p[0]] + p[1..];
      }
    }
  }
}
