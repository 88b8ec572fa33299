/**
 * Strings as the cache sees them: JavaScript's `String.prototype.includes`, which
 * `invalidatePattern` uses to pick the keys it deletes, and the decimal rendering
 * of a number inside a template literal, which builds the dataset cache keys and
 * the station tooltip.
 */
module Text {

  /** `p` occurs in `s` starting at index `i`. */
  predicate OccursAt(p: string, s: string, i: int) {
    0 <= i && i + |p| <= |s| && s[i..i + |p|] == p
  }

  /** The mathematical substring relation: `p` occurs somewhere in `s`. */
  ghost predicate IsSubstring(p: string, s: string) {
    exists i :: OccursAt(p, s, i)
  }

  /** `s.includes(p)`, scanning `s` from the left. */
  function Includes(s: string, p: string): bool
    decreases |s|
  {
    if |p| > |s| then false
    else if s[..|p|] == p then true
    else Includes(s[1..], p)
  }

  /** The scan agrees with the substring relation, in both directions. */
  lemma {:induction false} IncludesIsSubstring(s: string, p: string)
    ensures Includes(s, p) <==> IsSubstring(p, s)
    decreases |s|
  {
    if |p| > |s| {
    } else if s[..|p|] == p {
      assert OccursAt(p, s, 0);
    } else {
      IncludesIsSubstring(s[1..], p);
      if Includes(s[1..], p) {
        var i :| OccursAt(p, s[1..], i);
        OccursShift(p, s, i);
      }
      if IsSubstring(p, s) {
        var i :| OccursAt(p, s, i);
        assert i != 0;
        OccursShift(p, s, i - 1);
      }
    }
  }

  /** An occurrence in the tail of `s` is an occurrence in `s`, one place further on. */
  lemma OccursShift(p: string, s: string, i: int)
    requires |s| >= 1 && i >= 0
    ensures OccursAt(p, s[1..], i) <==> OccursAt(p, s, i + 1)
  {
    if i + |p| <= |s| - 1 {
      assert s[1..][i..i + |p|] == s[i + 1..i + 1 + |p|];
    }
  }

  /** The empty pattern occurs in every string. */
  lemma EmptyIsSubstring(s: string)
    ensures IsSubstring("", s)
  {
    assert OccursAt("", s, 0);
  }

  /** A prefix occurs in the string it starts. */
  lemma PrefixIsSubstring(p: string, t: string)
    ensures IsSubstring(p, p + t)
  {
    assert (p + t)[0..|p|] == p;
    assert OccursAt(p, p + t, 0);
  }

  /** Containment is transitive: a string holding `q` holds every substring of `q`. */
  lemma SubstringTransitive(p: string, q: string, s: string)
    requires IsSubstring(p, q) && IsSubstring(q, s)
    ensures IsSubstring(p, s)
  {
    var j :| OccursAt(p, q, j);
    var i :| OccursAt(q, s, i);
    assert forall k :: 0 <= k < |p| ==> p[k] == q[j + k] == s[i + j + k];
    assert s[i + j..i + j + |p|] == p;
    assert OccursAt(p, s, i + j);
  }

  /** Every character of a substring occurs in the string that holds it. */
  lemma SubstringChars(p: string, s: string)
    ensures IsSubstring(p, s) ==> forall c :: c in p ==> c in s
  {
    if IsSubstring(p, s) {
      var i :| OccursAt(p, s, i);
      forall c | c in p
        ensures c in s
      {
        var j :| 0 <= j < |p| && p[j] == c;
        assert s[i + j] == c;
      }
    }
  }

  predicate IsDigit(c: char) {
    '0' <= c <= '9'
  }

  function DigitChar(d: int): (c: char)
    requires 0 <= d < 10
    ensures IsDigit(c)
  {
    (48 + d) as char
  }

  /** The decimal digits of `n`, most significant first, with no leading zero. */
  function NatToString(n: nat): (r: string)
    ensures |r| >= 1
    ensures n >= 10 ==> |r| >= 2
    ensures forall i :: 0 <= i < |r| ==> IsDigit(r[i])
    decreases n
  {
    if n < 10 then [DigitChar(n)] else NatToString(n / 10) + [DigitChar(n % 10)]
  }

  /** `${n}` for an integer `n`. */
  function IntToString(n: int): (r: string)
    ensures |r| >= 1
    ensures IsDigit(r[0]) || r[0] == '-'
    ensures forall i :: 0 <= i < |r| ==> r[i] != '_'
  {
    if n < 0 then "-" + NatToString(-n) else NatToString(n)
  }

  /** Different numbers have different decimal renderings. */
  lemma {:induction false} NatToStringInjective(a: nat, b: nat)
    requires NatToString(a) == NatToString(b)
    ensures a == b
    decreases a
  {
    var ra, rb := NatToString(a), NatToString(b);
    if a < 10 && b < 10 {
      assert DigitChar(a) == ra[0] == rb[0] == DigitChar(b);
    } else if a >= 10 && b >= 10 {
      assert ra[|ra| - 1] == DigitChar(a % 10);
      assert rb[|rb| - 1] == DigitChar(b % 10);
      assert ra[..|ra| - 1] == NatToString(a / 10);
      assert rb[..|rb| - 1] == NatToString(b / 10);
      NatToStringInjective(a / 10, b / 10);
    }
  }

  lemma IntToStringInjective(a: int, b: int)
    requires IntToString(a) == IntToString(b)
    ensures a == b
  {
    var ra, rb := IntToString(a), IntToString(b);
    // a non-negative rendering starts with a digit, a negative one with '-'
    assert a >= 0 ==> IsDigit(ra[0]);
    assert b >= 0 ==> IsDigit(rb[0]);
    if ra[0] == '-' {
      assert a < 0 && b < 0;
      assert ra[1..] == NatToString(-a);
      assert rb[1..] == NatToString(-b);
      NatToStringInjective(-a, -b);
    } else {
      NatToStringInjective(a, b);
    }
  }

  /**
   * Splitting at the first underscore: when neither `a` nor `b` contains `_`,
   * `a + "_" + x == b + "_" + y` forces `a == b` and `x == y`.
   */
  lemma SplitAtUnderscore(a: string, x: string, b: string, y: string)
    requires forall i :: 0 <= i < |a| ==> a[i] != '_'
    requires forall i :: 0 <= i < |b| ==> b[i] != '_'
    ensures a + "_" + x == b + "_" + y <==> a == b && x == y
  {
    var l, r := a + "_" + x, b + "_" + y;
    if l == r {
      // the first underscore of `l` is at |a|, that of `r` at |b|
      assert forall i :: 0 <= i < |a| ==> l[i] == a[i];
      assert forall i :: 0 <= i < |b| ==> r[i] == b[i];
      assert l[|a|] == '_' && r[|b|] == '_';
      assert |a| == |b|;
      assert a == l[..|a|] == r[..|b|] == b;
      assert x == l[|a| + 1..] == r[|b| + 1..] == y;
    }
  }
}
