/**
 * Two-dimensional vectors over the reals, used for positions, actions and
 * predictions alike, with the component-wise sum and mean that every
 * `reduce` / `forEach` accumulation of the site computes.
 */
module Vectors {

  datatype Vec = Vec(x: real, y: real)

  function Add(a: Vec, b: Vec): Vec
  {
    Vec(a.x + b.x, a.y + b.y)
  }

  function Sub(a: Vec, b: Vec): Vec
  {
    Vec(a.x - b.x, a.y - b.y)
  }

  function Scale(c: real, v: Vec): Vec
  {
    Vec(c * v.x, c * v.y)
  }

  /** `Math.min` on two numbers. */
  function RMin(a: real, b: real): real
  {
    if a <= b then a else b
  }

  /** `Math.max` on two numbers. */
  function RMax(a: real, b: real): real
  {
    if a >= b then a else b
  }

  /** `f` never leaves [-1, 1], as `Math.sin` and `Math.cos` do not. */
  ghost predicate Bounded(f: real -> real)
  {
    forall a :: -1.0 <= f(a) <= 1.0
  }

  function Min(a: nat, b: nat): nat
  {
    if a <= b then a else b
  }

  /** Squared Euclidean distance; it orders points exactly as the distance does. */
  function SqDist(p: Vec, q: Vec): (r: real)
    ensures 0.0 <= r
    ensures p == q ==> r == 0.0
  {
    (p.x - q.x) * (p.x - q.x) + (p.y - q.y) * (p.y - q.y)
  }

  /** Left fold of `Add` from the zero vector, as `reduce((sum, v) => sum + v, 0)` does. */
  function Sum(s: seq<Vec>): Vec
    decreases |s|
  {
    if |s| == 0 then Vec(0.0, 0.0) else Add(Sum(s[..|s| - 1]), s[|s| - 1])
  }

  /** Component-wise mean: the sum divided by the count. */
  function Mean(s: seq<Vec>): (r: Vec)
    requires |s| > 0
    ensures |s| == 1 ==> r == s[0]
    ensures r.x * |s| as real == Sum(s).x && r.y * |s| as real == Sum(s).y
  {
    assert |s| == 1 ==> s[..0] == [] && Sum(s) == s[0];
    Vec(Sum(s).x / |s| as real, Sum(s).y / |s| as real)
  }

  lemma {:induction false} SumAppend(a: seq<Vec>, b: seq<Vec>)
    ensures Sum(a + b) == Add(Sum(a), Sum(b))
    decreases |b|
  {
    if |b| == 0 {
      assert a + b == a;
    } else {
      var b' := b[..|b| - 1];
      assert (a + b)[..|a + b| - 1] == a + b';
      SumAppend(a, b');
    }
  }

  /** Every vector of `s` lies in the axis-aligned box [lo, hi]. */
  ghost predicate InBox(s: seq<Vec>, lo: Vec, hi: Vec)
  {
    forall i :: 0 <= i < |s| ==> lo.x <= s[i].x <= hi.x && lo.y <= s[i].y <= hi.y
  }

  /** n copies of lo are at most sum, which is at most n copies of hi. */
  ghost predicate Between(n: real, sum: real, lo: real, hi: real)
  {
    n * lo <= sum <= n * hi
  }

  /** One induction step of SumInBox, on a single component. */
  lemma BoundStep(n: real, m: real, sum: real, v: real, lo: real, hi: real)
    requires m == n + 1.0
    requires Between(n, sum, lo, hi) && lo <= v <= hi
    ensures Between(m, sum + v, lo, hi)
  {
    assert m * lo == n * lo + lo;
    assert m * hi == n * hi + hi;
  }

  /** A quotient of a sum that lies between n copies of lo and of hi lies between lo and hi. */
  lemma QuotientBetween(n: real, sum: real, q: real, lo: real, hi: real)
    requires 0.0 < n && q * n == sum
    requires Between(n, sum, lo, hi)
    ensures lo <= q <= hi
  {
  }

  lemma {:induction false} SumInBox(s: seq<Vec>, lo: Vec, hi: Vec)
    requires InBox(s, lo, hi)
    ensures Between(|s| as real, Sum(s).x, lo.x, hi.x)
    ensures Between(|s| as real, Sum(s).y, lo.y, hi.y)
    decreases |s|
  {
    if |s| > 0 {
      var s' := s[..|s| - 1];
      assert InBox(s', lo, hi) by {
        forall i | 0 <= i < |s'| ensures lo.x <= s'[i].x <= hi.x && lo.y <= s'[i].y <= hi.y {
          assert s'[i] == s[i];
        }
      }
      SumInBox(s', lo, hi);
      var last := s[|s| - 1];
      assert Sum(s) == Add(Sum(s'), last);
      BoundStep(|s'| as real, |s| as real, Sum(s').x, last.x, lo.x, hi.x);
      BoundStep(|s'| as real, |s| as real, Sum(s').y, last.y, lo.y, hi.y);
    }
  }

  /** The mean of vectors inside a box stays inside that box. */
  lemma MeanInBox(s: seq<Vec>, lo: Vec, hi: Vec)
    requires |s| > 0
    requires InBox(s, lo, hi)
    ensures lo.x <= Mean(s).x <= hi.x && lo.y <= Mean(s).y <= hi.y
  {
    SumInBox(s, lo, hi);
    var m := Mean(s);
    QuotientBetween(|s| as real, Sum(s).x, m.x, lo.x, hi.x);
    QuotientBetween(|s| as real, Sum(s).y, m.y, lo.y, hi.y);
  }
}
