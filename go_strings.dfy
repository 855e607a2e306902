/**
 * Go's `strings.TrimSpace`, which the helper invoker applies to a failed
 * helper's standard output before comparing it with the sentinel messages.
 * As in Go, it is `TrimFunc` with `unicode.IsSpace`: trimming is stated once
 * for any character class, and whitespace is the Unicode White_Space property.
 */
module GoStrings {

  /** `unicode.IsSpace`: tab, newline, vertical tab, form feed, carriage return,
      space, NEL, NBSP, and the remaining White_Space code points. */
  predicate IsSpace(c: char) {
    var n := c as int;
    (9 <= n <= 13) || n == 0x20 || n == 0x85 || n == 0xA0 || n == 0x1680
    || (0x2000 <= n <= 0x200A) || n == 0x2028 || n == 0x2029 || n == 0x202F
    || n == 0x205F || n == 0x3000
  }

  /** Every character of `s` is in the class `f`. */
  predicate All(s: string, f: char -> bool) {
    forall i :: 0 <= i < |s| ==> f(s[i])
  }

  /** Neither end of `s` is in the class `f`: nothing is left for a trim to remove. */
  predicate Trimmed(s: string, f: char -> bool) {
    s == [] || (!f(s[0]) && !f(s[|s| - 1]))
  }

  /** `s` is `m` with the characters `pre` before it and `post` after it, all in the class `f`. */
  predicate PaddedBy(s: string, pre: string, m: string, post: string, f: char -> bool) {
    s == pre + m + post && All(pre, f) && All(post, f)
  }

  /** `strings.TrimLeftFunc`: the suffix of `s` that starts at its first
      character outside `f`. */
  function TrimLeftFunc(s: string, f: char -> bool): (r: string)
    ensures |r| <= |s| && r == s[|s| - |r|..]
    ensures All(s[..|s| - |r|], f)
    ensures r == [] || !f(r[0])
  {
    if s != [] && f(s[0]) then
      var r := TrimLeftFunc(s[1..], f);
      assert s[..|s| - |r|] == [s[0]] + s[1..][..|s| - 1 - |r|];
      r
    else s
  }

  /** `strings.TrimRightFunc`: the prefix of `s` that ends at its last
      character outside `f`. */
  function TrimRightFunc(s: string, f: char -> bool): (r: string)
    ensures |r| <= |s| && r == s[..|r|]
    ensures All(s[|r|..], f)
    ensures r == [] || !f(r[|r| - 1])
  {
    if s != [] && f(s[|s| - 1]) then
      var r := TrimRightFunc(s[..|s| - 1], f);
      assert s[|r|..] == s[..|s| - 1][|r|..] + [s[|s| - 1]];
      r
    else s
  }

  /** `strings.TrimFunc`: `s` is the result padded on both sides with characters
      of `f`, and the result has no such character at either end. */
  function TrimFunc(s: string, f: char -> bool): (r: string)
    ensures Trimmed(r, f)
    ensures exists pre, post :: PaddedBy(s, pre, r, post, f)
  {
    var l := TrimLeftFunc(s, f);
    TrimRightAfterLeft(l, f);
    TrimRightPadding(s, l, f);
    TrimRightFunc(l, f)
  }

  lemma TrimRightAfterLeft(l: string, f: char -> bool)
    requires l == [] || !f(l[0])
    ensures Trimmed(TrimRightFunc(l, f), f)
  {
    var r := TrimRightFunc(l, f);
    if r != [] { assert r[0] == l[0]; }
  }

  lemma TrimRightPadding(s: string, l: string, f: char -> bool)
    requires |l| <= |s| && l == s[|s| - |l|..] && All(s[..|s| - |l|], f)
    ensures PaddedBy(s, s[..|s| - |l|], TrimRightFunc(l, f), l[|TrimRightFunc(l, f)|..], f)
  {
    var r := TrimRightFunc(l, f);
    Recompose(s, l, r);
  }

  /** A suffix `l` of `s` and a prefix `r` of `l` cut `s` into three pieces. */
  lemma Recompose(s: string, l: string, r: string)
    requires |l| <= |s| && l == s[|s| - |l|..]
    requires |r| <= |l| && r == l[..|r|]
    ensures s == s[..|s| - |l|] + r + l[|r|..]
  {
    assert l == r + l[|r|..];
    assert s == s[..|s| - |l|] + l;
  }

  /** `strings.TrimSpace`. */
  function TrimSpace(s: string): (r: string)
    ensures Trimmed(r, IsSpace)
    ensures exists pre, post :: PaddedBy(s, pre, r, post, IsSpace)
  {
    TrimFunc(s, IsSpace)
  }

  lemma {:induction false} TrimLeftPadded(pre: string, t: string, f: char -> bool)
    requires All(pre, f)
    requires t == [] || !f(t[0])
    ensures TrimLeftFunc(pre + t, f) == t
  {
    if pre == [] {
      assert pre + t == t;
    } else {
      assert (pre + t)[1..] == pre[1..] + t;
      TrimLeftPadded(pre[1..], t, f);
    }
  }

  lemma {:induction false} TrimRightPadded(t: string, post: string, f: char -> bool)
    requires All(post, f)
    requires t == [] || !f(t[|t| - 1])
    ensures TrimRightFunc(t + post, f) == t
  {
    if post == [] {
      assert t + post == t;
    } else {
      var u := t + post;
      assert u[..|u| - 1] == t + post[..|post| - 1];
      TrimRightPadded(t, post[..|post| - 1], f);
    }
  }

  /** Trimming recovers a text whose ends are outside `f` from any padding of
      characters of `f` around it; with the contract of TrimFunc this
      determines TrimFunc. */
  lemma {:induction false} TrimFuncPadded(pre: string, m: string, post: string, f: char -> bool)
    requires All(pre, f) && All(post, f)
    requires Trimmed(m, f)
    ensures TrimFunc(pre + m + post, f) == m
  {
    if m == [] {
      assert pre + m + post == pre + post;
      assert All(pre + post, f);
    } else {
      assert pre + m + post == pre + (m + post);
      TrimLeftPadded(pre, m + post, f);
      TrimRightPadded(m, post, f);
    }
  }

  /** Trimming any whitespace padding around a text with non-space ends gives
      back exactly that text. */
  lemma TrimSpacePadded(pre: string, m: string, post: string)
    requires All(pre, IsSpace) && All(post, IsSpace)
    requires Trimmed(m, IsSpace)
    ensures TrimSpace(pre + m + post) == m
  {
    TrimFuncPadded(pre, m, post, IsSpace);
  }
}
