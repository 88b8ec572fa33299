/**
 * The array helpers the chart components lean on: `filter`, a sum by `reduce`, and
 * `Math.min(...xs)` / `Math.max(...xs)` over a non-empty list of integers.
 */
module Sequences {

  /** `s.filter(p)`: the elements satisfying `p`, in their original order. */
  function Filter<T>(s: seq<T>, p: T -> bool): (r: seq<T>)
    ensures |r| <= |s|
    ensures forall i :: 0 <= i < |r| ==> r[i] in s && p(r[i])
    ensures forall i :: 0 <= i < |s| && p(s[i]) ==> s[i] in r
    decreases |s|
  {
    if s == [] then [] else (if p(s[0]) then [s[0]] else []) + Filter(s[1..], p)
  }

  /** A filter that keeps nothing. */
  lemma {:induction false} FilterDropsAll<T>(s: seq<T>, p: T -> bool)
    requires forall i :: 0 <= i < |s| ==> !p(s[i])
    ensures Filter(s, p) == []
    decreases |s|
  {
    if s != [] {
      FilterDropsAll(s[1..], p);
    }
  }

  /** `s.reduce((sum, x) => sum + x, 0)`, adding from the left. */
  function Sum(s: seq<int>): int
    decreases |s|
  {
    if s == [] then 0 else Sum(s[..|s| - 1]) + s[|s| - 1]
  }

  /**
   * A sum of `n` terms each at most `m` is at most `n * m`, and strictly less once one
   * term is below `m`.
   */
  lemma {:induction false} SumAtMost(s: seq<int>, m: int)
    requires forall i :: 0 <= i < |s| ==> s[i] <= m
    ensures Sum(s) <= |s| * m
    ensures (exists i :: 0 <= i < |s| && s[i] < m) ==> Sum(s) < |s| * m
    decreases |s|
  {
    if s != [] {
      var init := s[..|s| - 1];
      SumAtMost(init, m);
      assert |s| * m == |init| * m + m;
      if exists i :: 0 <= i < |s| && s[i] < m {
        var i :| 0 <= i < |s| && s[i] < m;
        if i < |s| - 1 {
          assert init[i] < m;
        }
      }
    }
  }

  /** A sum of `n` equal terms `c` is `n * c`. */
  lemma {:induction false} SumConstant(s: seq<int>, c: int)
    requires forall i :: 0 <= i < |s| ==> s[i] == c
    ensures Sum(s) == |s| * c
    decreases |s|
  {
    if s != [] {
      SumConstant(s[..|s| - 1], c);
      assert |s| * c == (|s| - 1) * c + c;
    }
  }

  /** `Math.min(...s)`: the smallest element, which occurs in `s`. */
  function MinOf(s: seq<int>): (m: int)
    requires |s| > 0
    ensures m in s
    ensures forall i :: 0 <= i < |s| ==> m <= s[i]
    decreases |s|
  {
    if |s| == 1 then s[0]
    else
      var rest := MinOf(s[1..]);
      assert forall i :: 1 <= i < |s| ==> s[i] == s[1..][i - 1];
      if s[0] <= rest then s[0] else rest
  }

  /** `Math.max(...s)`: the largest element, which occurs in `s`. */
  function MaxOf(s: seq<int>): (m: int)
    requires |s| > 0
    ensures m in s
    ensures forall i :: 0 <= i < |s| ==> s[i] <= m
    decreases |s|
  {
    if |s| == 1 then s[0]
    else
      var rest := MaxOf(s[1..]);
      assert forall i :: 1 <= i < |s| ==> s[i] == s[1..][i - 1];
      if s[0] >= rest then s[0] else rest
  }

  /** The smallest element never exceeds the largest. */
  lemma MinAtMostMax(s: seq<int>)
    requires |s| > 0
    ensures MinOf(s) <= MaxOf(s)
  {
    assert MinOf(s) <= s[0] <= MaxOf(s);
  }
}
