/** Shared vocabulary of the dashboard model: optional values, substring tests on labels,
    planar points, first-index minima and maxima, counting, and the two pieces of Python
    semantics the dashboard relies on (dropping whole days from a time difference, and
    `xs[-n:]` slicing). */
module Common {

  datatype Option<T> = None | Some(value: T)

  // ---------------------------------------------------------------------------
  // Substrings: Python's `sub in s` on strings
  // ---------------------------------------------------------------------------

  /** `sub` occurs in `s` starting at index `i`. */
  predicate OccursAt(s: string, sub: string, i: int)
  {
    0 <= i && i + |sub| <= |s| && s[i..i + |sub|] == sub
  }

  /** Python's `sub in s`. */
  predicate Contains(s: string, sub: string)
  {
    exists i | 0 <= i <= |s| :: OccursAt(s, sub, i)
  }

  /** A string that lacks one of the characters of `sub` cannot contain `sub`. */
  lemma MissingCharNotContained(s: string, sub: string, k: nat)
    requires k < |sub|
    requires forall j | 0 <= j < |s| :: s[j] != sub[k]
    ensures !Contains(s, sub)
  {
    forall i | 0 <= i <= |s| ensures !OccursAt(s, sub, i) {
      if i + |sub| <= |s| {
        assert s[i..i + |sub|][k] == s[i + k];
      }
    }
  }

  // ---------------------------------------------------------------------------
  // Real arithmetic
  // ---------------------------------------------------------------------------

  function Max(a: real, b: real): real { if a >= b then a else b }
  function Min(a: real, b: real): real { if a <= b then a else b }

  /** Python's `int(x)` on a float: truncation toward zero. */
  function Trunc(x: real): (n: int)
    ensures x >= 0.0 ==> n as real <= x < n as real + 1.0
    ensures x < 0.0 ==> n as real - 1.0 < x <= n as real
  {
    if x >= 0.0 then x.Floor else -((-x).Floor)
  }

  /** Scaling by a non-negative factor keeps the order. */
  lemma MulMonotone(a: real, x: real, y: real)
    requires a >= 0.0
    requires x <= y
    ensures a * x <= a * y
  {
    assert a * y - a * x == a * (y - x);
  }

  /** `count / total * 100` as a real percentage. */
  function Percent(count: nat, total: nat): (p: real)
    requires total > 0
    requires count <= total
    ensures 0.0 <= p <= 100.0
    ensures p == 100.0 <==> count == total
    ensures p == 0.0 <==> count == 0
  {
    var f := count as real / total as real;
    assert f * total as real == count as real;
    f * 100.0
  }

  /** A larger count out of the same total is a larger percentage. */
  lemma PercentMonotone(a: nat, b: nat, total: nat)
    requires total > 0 && a <= b <= total
    ensures Percent(a, total) <= Percent(b, total)
  {
    var fa := a as real / total as real;
    var fb := b as real / total as real;
    assert fa * total as real == a as real;
    assert fb * total as real == b as real;
    assert (fb - fa) * total as real == (b - a) as real;
    assert fa <= fb;
    MulMonotone(100.0, fa, fb);
  }

  // ---------------------------------------------------------------------------
  // Points and distances
  // ---------------------------------------------------------------------------

  /** A latitude/longitude pair in degrees, as the dashboard stores coordinates. */
  datatype Point = Point(lat: real, lon: real)

  /** The square of the Euclidean distance in degrees that the source computes with a square
      root. For non-negative `r`, `distance < r` holds exactly when `SqDist < r * r`, and the
      two have the same minimisers, so comparisons and argmins are stated on this value. */
  function SqDist(a: Point, b: Point): (d: real)
    ensures d >= 0.0
  {
    (a.lat - b.lat) * (a.lat - b.lat) + (a.lon - b.lon) * (a.lon - b.lon)
  }

  lemma SqDistSymmetric(a: Point, b: Point)
    ensures SqDist(a, b) == SqDist(b, a)
  {
  }

  lemma SqDistZeroOnSamePoint(a: Point)
    ensures SqDist(a, a) == 0.0
  {
  }

  // ---------------------------------------------------------------------------
  // Minima and maxima over sequences
  // ---------------------------------------------------------------------------

  /** The first index of a minimum, as a left-to-right scan that replaces its candidate only
      on a strictly smaller value computes it (and as `numpy.argmin` returns it). */
  function ArgMin(s: seq<real>): (k: nat)
    requires |s| > 0
    ensures k < |s|
    ensures forall j | 0 <= j < |s| :: s[k] <= s[j]
    ensures forall j | 0 <= j < k :: s[k] < s[j]
  {
    if |s| == 1 then 0
    else
      var k := ArgMin(s[..|s| - 1]);
      if s[|s| - 1] < s[k] then |s| - 1 else k
  }

  /** The largest element of a non-empty sequence (`numpy.max`). */
  function MaxOf(s: seq<real>): (m: real)
    requires |s| > 0
    ensures forall i | 0 <= i < |s| :: s[i] <= m
    ensures exists i | 0 <= i < |s| :: s[i] == m
  {
    if |s| == 1 then s[0]
    else
      var m := MaxOf(s[..|s| - 1]);
      assert forall i | 0 <= i < |s| - 1 :: s[..|s| - 1][i] == s[i];
      Max(m, s[|s| - 1])
  }

  // ---------------------------------------------------------------------------
  // Counting
  // ---------------------------------------------------------------------------

  /** The number of elements of `s` that satisfy `p`, counted left to right. */
  function Count<T>(s: seq<T>, p: T -> bool): (n: nat)
    ensures n <= |s|
  {
    if |s| == 0 then 0
    else Count(s[..|s| - 1], p) + (if p(s[|s| - 1]) then 1 else 0)
  }

  /** Counting a prefix one element longer. */
  lemma CountStep<T>(s: seq<T>, p: T -> bool, i: nat)
    requires i < |s|
    ensures Count(s[..i + 1], p) == Count(s[..i], p) + (if p(s[i]) then 1 else 0)
  {
    assert s[..i + 1][..i] == s[..i];
  }

  /** Counting the elements of a concatenation. */
  lemma {:induction false} CountConcat<T>(s: seq<T>, t: seq<T>, p: T -> bool)
    ensures Count(s + t, p) == Count(s, p) + Count(t, p)
  {
    if |t| > 0 {
      assert (s + t)[..|s + t| - 1] == s + t[..|t| - 1];
      CountConcat(s, t[..|t| - 1], p);
    } else {
      assert s + t == s;
    }
  }

  /** A weaker predicate is satisfied at least as often. */
  lemma {:induction false} CountMonotone<T>(s: seq<T>, p: T -> bool, q: T -> bool)
    requires forall i | 0 <= i < |s| :: p(s[i]) ==> q(s[i])
    ensures Count(s, p) <= Count(s, q)
  {
    if |s| > 0 {
      CountMonotone(s[..|s| - 1], p, q);
    }
  }

  /** A predicate that no element satisfies counts zero. */
  lemma {:induction false} CountNone<T>(s: seq<T>, p: T -> bool)
    requires forall i | 0 <= i < |s| :: !p(s[i])
    ensures Count(s, p) == 0
  {
    if |s| > 0 {
      CountNone(s[..|s| - 1], p);
    }
  }

  /** A predicate that every element satisfies counts every element. */
  lemma {:induction false} CountAll<T>(s: seq<T>, p: T -> bool)
    requires forall i | 0 <= i < |s| :: p(s[i])
    ensures Count(s, p) == |s|
  {
    if |s| > 0 {
      CountAll(s[..|s| - 1], p);
    }
  }

  /** Every element satisfies the predicate exactly when all of them are counted. */
  lemma {:induction false} CountAllIff<T>(s: seq<T>, p: T -> bool)
    ensures Count(s, p) == |s| <==> forall i | 0 <= i < |s| :: p(s[i])
  {
    if |s| > 0 {
      CountAllIff(s[..|s| - 1], p);
      assert forall i | 0 <= i < |s| - 1 :: s[..|s| - 1][i] == s[i];
    }
  }

  /** A count is positive exactly when some element satisfies the predicate. */
  lemma {:induction false} CountPositiveIff<T>(s: seq<T>, p: T -> bool)
    ensures Count(s, p) > 0 <==> exists i | 0 <= i < |s| :: p(s[i])
  {
    if |s| > 0 {
      CountPositiveIff(s[..|s| - 1], p);
      assert forall i | 0 <= i < |s| - 1 :: s[..|s| - 1][i] == s[i];
    }
  }

  // ---------------------------------------------------------------------------
  // Python semantics
  // ---------------------------------------------------------------------------

  const SecondsPerDay: int := 86400

  /** `timedelta.seconds` of a time difference given in seconds: Python normalises a
      timedelta to whole days plus `0 <= seconds < 86400` plus microseconds, so whole days
      are dropped (also for a negative difference, whose `days` is negative). */
  function TimedeltaSeconds(elapsed: real): (sec: int)
    ensures 0 <= sec < SecondsPerDay
    ensures 0.0 <= elapsed < SecondsPerDay as real ==> sec == elapsed.Floor
  {
    elapsed.Floor % SecondsPerDay
  }

  /** Python's `xs[start:]` for any integer `start` (negative counts from the end). */
  function SliceFrom<T>(xs: seq<T>, start: int): (r: seq<T>)
    ensures |r| <= |xs|
  {
    var k := if start < 0 then (if |xs| + start < 0 then 0 else |xs| + start)
             else (if start > |xs| then |xs| else start);
    xs[k..]
  }

  /** Keep the most recent `n` items: `xs[-n:]` applied when `len(xs) > n`. */
  function KeepLast<T>(xs: seq<T>, n: nat): (r: seq<T>)
    ensures |r| == if |xs| > n then n else |xs|
    ensures |xs| <= n ==> r == xs
  {
    if |xs| > n then xs[|xs| - n..] else xs
  }

  /** The items kept are the last ones of `xs`, in their order. */
  lemma KeepLastElements<T>(xs: seq<T>, n: nat)
    ensures forall i | 0 <= i < |KeepLast(xs, n)| :: KeepLast(xs, n)[i] == xs[|xs| - |KeepLast(xs, n)| + i]
  {
  }
}
