/**
 * Brute-force k-nearest-neighbour selection, the shape shared by the three
 * demos: map every point to an (index, distance) pair, sort the pairs
 * ascending by distance with JavaScript's stable `Array.prototype.sort`, and
 * keep the first k.  Distances here are squared distances; the square root is
 * monotone, so the order and the ties are the same.
 */
module Knn {
  import opened Vectors

  /** One `{ idx, dist }` entry of the mapped array. */
  datatype Neighbor = Neighbor(idx: nat, dist: real)

  /** Strictly before in the order a stable ascending sort produces: nearer, or equally near and earlier. */
  predicate Precedes(a: Neighbor, b: Neighbor)
  {
    a.dist < b.dist || (a.dist == b.dist && a.idx < b.idx)
  }

  ghost predicate StrictlySorted(s: seq<Neighbor>)
  {
    forall i, j :: 0 <= i < j < |s| ==> Precedes(s[i], s[j])
  }

  /** `points.map((p, idx) => ({ idx, dist }))` for precomputed distances. */
  function Ranked(dists: seq<real>): (r: seq<Neighbor>)
    ensures |r| == |dists|
    ensures forall i :: 0 <= i < |r| ==> r[i] == Neighbor(i, dists[i])
  {
    seq(|dists|, i requires 0 <= i < |dists| => Neighbor(i, dists[i]))
  }

  /**
   * Inserts `x` into `s` in front of the first entry that is not nearer than `x`;
   * `x` comes from earlier in the input than everything in `s`, so ties keep
   * their input order.
   */
  function Insert(x: Neighbor, s: seq<Neighbor>): (r: seq<Neighbor>)
    ensures multiset(r) == multiset(s) + multiset{x}
    decreases |s|
  {
    if s == [] || x.dist <= s[0].dist then [x] + s
    else
      assert s == [s[0]] + s[1..];
      [s[0]] + Insert(x, s[1..])
  }

  /** Stable ascending sort by `dist` (the comparator `(a, b) => a.dist - b.dist`). */
  function SortByDist(s: seq<Neighbor>): (r: seq<Neighbor>)
    ensures multiset(r) == multiset(s)
    ensures |r| == |s|
    decreases |s|
  {
    if s == [] then []
    else
      assert s == [s[0]] + s[1..];
      Insert(s[0], SortByDist(s[1..]))
  }

  lemma {:induction false} InsertSorted(x: Neighbor, s: seq<Neighbor>)
    requires StrictlySorted(s)
    requires forall y :: y in s ==> x.idx < y.idx
    ensures StrictlySorted(Insert(x, s))
    decreases |s|
  {
    if s == [] || x.dist <= s[0].dist {
      forall j | 0 <= j < |s| ensures Precedes(x, s[j]) {
        assert s[j] in s;
        assert j > 0 ==> Precedes(s[0], s[j]);
      }
      ConsSorted(x, s);
    } else {
      var t := s[1..];
      TailSorted(s);
      assert forall y :: y in t ==> y in s;
      InsertSorted(x, t);
      var u := Insert(x, t);
      forall j | 0 <= j < |u| ensures Precedes(s[0], u[j]) {
        assert u[j] in multiset(u);
        if u[j] != x {
          assert u[j] in multiset(t);
          var k :| 0 <= k < |t| && t[k] == u[j];
          assert t[k] == s[k + 1];
        }
      }
      ConsSorted(s[0], u);
    }
  }

  /** An entry that precedes every entry of a sorted list can go in front of it. */
  lemma ConsSorted(x: Neighbor, s: seq<Neighbor>)
    requires StrictlySorted(s)
    requires forall j :: 0 <= j < |s| ==> Precedes(x, s[j])
    ensures StrictlySorted([x] + s)
  {
    var r := [x] + s;
    forall i, j | 0 <= i < j < |r| ensures Precedes(r[i], r[j]) {
      if i == 0 {
        assert r[j] == s[j - 1];
      } else {
        assert r[i] == s[i - 1] && r[j] == s[j - 1];
      }
    }
  }

  /** The tail of a sorted list is sorted. */
  lemma TailSorted(s: seq<Neighbor>)
    requires StrictlySorted(s) && |s| > 0
    ensures StrictlySorted(s[1..])
  {
    var t := s[1..];
    forall i, j | 0 <= i < j < |t| ensures Precedes(t[i], t[j]) {
      assert t[i] == s[i + 1] && t[j] == s[j + 1];
    }
  }

  /** Sorting entries whose indices increase gives the strict (dist, idx) order. */
  lemma {:induction false} SortSorted(s: seq<Neighbor>)
    requires forall i, j :: 0 <= i < j < |s| ==> s[i].idx < s[j].idx
    ensures StrictlySorted(SortByDist(s))
    decreases |s|
  {
    if s != [] {
      var t := s[1..];
      forall i, j | 0 <= i < j < |t| ensures t[i].idx < t[j].idx {
        assert t[i] == s[i + 1] && t[j] == s[j + 1];
      }
      SortSorted(t);
      var u := SortByDist(t);
      forall y | y in u ensures s[0].idx < y.idx {
        assert y in multiset(u);
        assert y in multiset(t);
        var k :| 0 <= k < |t| && t[k] == y;
        assert t[k] == s[k + 1];
      }
      InsertSorted(s[0], u);
    }
  }

  /** The first `k` entries of the sorted ranking of `dists`. */
  function NearestK(dists: seq<real>, k: nat): (r: seq<Neighbor>)
    ensures |r| == Min(k, |dists|)
    ensures forall i :: 0 <= i < |r| ==> r[i].idx < |dists| && r[i].dist == dists[r[i].idx]
    ensures forall i, j :: 0 <= i < j < |r| ==> Precedes(r[i], r[j])
    ensures forall m :: 0 <= m < |dists| && (forall i :: 0 <= i < |r| ==> r[i].idx != m) ==>
              forall i :: 0 <= i < |r| ==> Precedes(r[i], Neighbor(m, dists[m]))
    ensures k >= |dists| ==> forall m :: 0 <= m < |dists| ==> Neighbor(m, dists[m]) in r
  {
    NearestKFacts(dists, k);
    SortByDist(Ranked(dists))[..Min(k, |dists|)]
  }

  /** The sorted ranking holds every `(m, dists[m])` once, in the strict (dist, idx) order. */
  lemma SortedRanking(dists: seq<real>)
    ensures var s := SortByDist(Ranked(dists));
      && |s| == |dists|
      && StrictlySorted(s)
      && (forall i :: 0 <= i < |s| ==> s[i].idx < |dists| && s[i].dist == dists[s[i].idx])
      && (forall m :: 0 <= m < |dists| ==> Neighbor(m, dists[m]) in s)
  {
    var ranked := Ranked(dists);
    var sorted := SortByDist(ranked);
    SortSorted(ranked);
    forall i | 0 <= i < |sorted| ensures sorted[i].idx < |dists| && sorted[i].dist == dists[sorted[i].idx] {
      assert sorted[i] in multiset(ranked);
    }
    forall m | 0 <= m < |dists| ensures Neighbor(m, dists[m]) in sorted {
      assert ranked[m] in multiset(sorted);
    }
  }

  /** What taking the first `n` entries of such a ranking keeps and leaves out. */
  lemma PrefixFacts(dists: seq<real>, sorted: seq<Neighbor>, n: nat)
    requires |sorted| == |dists| && n <= |sorted|
    requires StrictlySorted(sorted)
    requires forall m :: 0 <= m < |dists| ==> Neighbor(m, dists[m]) in sorted
    ensures var r := sorted[..n];
      && (forall i, j :: 0 <= i < j < |r| ==> Precedes(r[i], r[j]))
      && (forall m :: 0 <= m < |dists| && (forall i :: 0 <= i < |r| ==> r[i].idx != m) ==>
            forall i :: 0 <= i < |r| ==> Precedes(r[i], Neighbor(m, dists[m])))
  {
    var r := sorted[..n];
    forall i, j | 0 <= i < j < |r| ensures Precedes(r[i], r[j]) {
      assert r[i] == sorted[i] && r[j] == sorted[j];
    }
    forall m | 0 <= m < |dists| && (forall i :: 0 <= i < |r| ==> r[i].idx != m)
      ensures forall i :: 0 <= i < |r| ==> Precedes(r[i], Neighbor(m, dists[m]))
    {
      var p :| 0 <= p < |sorted| && sorted[p] == Neighbor(m, dists[m]);
      forall i | 0 <= i < |r| ensures Precedes(r[i], Neighbor(m, dists[m])) {
        assert r[i] == sorted[i];
      }
    }
  }

  lemma NearestKFacts(dists: seq<real>, k: nat)
    ensures var r := SortByDist(Ranked(dists))[..Min(k, |dists|)];
      && |r| == Min(k, |dists|)
      && (forall i :: 0 <= i < |r| ==> r[i].idx < |dists| && r[i].dist == dists[r[i].idx])
      && (forall i, j :: 0 <= i < j < |r| ==> Precedes(r[i], r[j]))
      && (forall m :: 0 <= m < |dists| && (forall i :: 0 <= i < |r| ==> r[i].idx != m) ==>
            forall i :: 0 <= i < |r| ==> Precedes(r[i], Neighbor(m, dists[m])))
      && (k >= |dists| ==> forall m :: 0 <= m < |dists| ==> Neighbor(m, dists[m]) in r)
  {
    var sorted := SortByDist(Ranked(dists));
    SortedRanking(dists);
    PrefixFacts(dists, sorted, Min(k, |dists|));
    var r := sorted[..Min(k, |dists|)];
    forall i | 0 <= i < |r| ensures r[i].idx < |dists| && r[i].dist == dists[r[i].idx] {
      assert r[i] == sorted[i];
    }
    if k >= |dists| {
      assert r == sorted;
    }
  }
}
