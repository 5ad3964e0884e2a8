/**
 * The multimodal demo: two clusters of demonstrations around two centres, a
 * fixed query between them, and a scripted eight-second cycle that selects
 * the query's neighbours, shows their plain average (which falls between the
 * clusters) and then one mean per cluster (which keeps both modes).
 *
 * Time is counted in frames: every `update` adds 0.02 s, so the cycle
 * position `time % 8` is `(ticks % 400) / 50` seconds.
 */
module Multimodal {
  import opened Vectors
  import opened Knn

  const NumPerCluster: nat := 30
  /** The `k` of `findKNearest(queryState, 12)`. */
  const SelectCount: nat := 12
  /** Frames per eight-second cycle. */
  const CycleTicks: nat := 400

  /** A demonstration point: where it is drawn now, and the rest position it floats around. */
  datatype Point = Point(x: real, y: real, baseX: real, baseY: real)

  datatype Cluster = A | B

  /**
   * One entry `{ point, dist, cluster }` of `findKNearest`.  The JavaScript
   * entry holds the point object itself, which `update` keeps moving; here
   * the entry holds the point's index in `[...clusterA, ...clusterB]`, and
   * the point is read from the clusters whenever it is needed.
   */
  datatype Selected = Selected(idx: nat, dist: real, cluster: Cluster)

  function Position(p: Point): Vec
  {
    Vec(p.x, p.y)
  }

  function Distances(points: seq<Point>, query: Vec): (r: seq<real>)
    ensures |r| == |points|
    ensures forall i :: 0 <= i < |r| ==> r[i] == SqDist(Position(points[i]), query)
  {
    seq(|points|, i requires 0 <= i < |points| => SqDist(Position(points[i]), query))
  }

  function Label(idx: nat): Cluster
  {
    if idx < NumPerCluster then A else B
  }

  function ToSelected(ns: seq<Neighbor>): (r: seq<Selected>)
    ensures |r| == |ns|
    ensures forall i :: 0 <= i < |r| ==> r[i] == Selected(ns[i].idx, ns[i].dist, Label(ns[i].idx))
  {
    seq(|ns|, i requires 0 <= i < |ns| => Selected(ns[i].idx, ns[i].dist, Label(ns[i].idx)))
  }

  /** Some entry of `r` is point `m` of the combined array. */
  predicate Chosen(r: seq<Selected>, m: nat)
  {
    exists i :: 0 <= i < |r| && r[i].idx == m
  }

  /** `findKNearest(query, k)` over `[...clusterA, ...clusterB]`. */
  function FindKNearest(clusterA: seq<Point>, clusterB: seq<Point>, query: Vec, k: nat): (r: seq<Selected>)
    ensures |r| == Min(k, |clusterA| + |clusterB|)
    ensures forall i :: 0 <= i < |r| ==>
              && r[i].idx < |clusterA| + |clusterB|
              && r[i].dist == SqDist(Position((clusterA + clusterB)[r[i].idx]), query)
              && (r[i].cluster == A <==> r[i].idx < NumPerCluster)
    ensures forall i, j :: 0 <= i < j < |r| ==>
              r[i].dist < r[j].dist || (r[i].dist == r[j].dist && r[i].idx < r[j].idx)
    ensures forall m :: 0 <= m < |clusterA| + |clusterB| && !Chosen(r, m) ==>
              forall i :: 0 <= i < |r| ==>
                var d := SqDist(Position((clusterA + clusterB)[m]), query);
                r[i].dist < d || (r[i].dist == d && r[i].idx < m)
  {
    var ns := NearestK(Distances(clusterA + clusterB, query), k);
    var r := ToSelected(ns);
    assert forall m :: 0 <= m < |clusterA| + |clusterB| && !Chosen(r, m) ==>
             forall i :: 0 <= i < |ns| ==> ns[i].idx != m by {
      forall m, i | 0 <= m < |clusterA| + |clusterB| && !Chosen(r, m) && 0 <= i < |ns| ensures ns[i].idx != m {
        assert r[i].idx == ns[i].idx;
      }
    }
    r
  }

  // ---------------------------------------------------------------- the cycle

  datatype Stage = SelectNeighbors | ShowAverage | ShowModes | Hold

  /** `time % 8`, in seconds, at frame `t`. */
  function PhaseSeconds(t: nat): (r: real)
    ensures 0.0 <= r < 8.0
  {
    (t % CycleTicks) as real / 50.0
  }

  /** The branch of `update` that `phase` selects. */
  function StageOf(t: nat): (r: Stage)
    ensures r == SelectNeighbors <==> t % CycleTicks < 50
    ensures r == ShowAverage <==> 50 <= t % CycleTicks < 125
    ensures r == ShowModes <==> 125 <= t % CycleTicks < 250
    ensures r == Hold <==> 250 <= t % CycleTicks
  {
    var phase := PhaseSeconds(t);
    if phase < 1.0 then SelectNeighbors
    else if phase < 2.5 then ShowAverage
    else if phase < 5.0 then ShowModes
    else Hold
  }

  /** The opacity `update` gives the averaged prediction at frame `t`. */
  function AverageAlpha(t: nat): (r: real)
    ensures 0.0 <= r <= 1.0
    ensures StageOf(t) == SelectNeighbors || StageOf(t) == Hold ==> r == 0.0
    ensures StageOf(t) == ShowAverage && 1.75 <= PhaseSeconds(t) ==> r == 1.0
    ensures t % CycleTicks == 125 ==> r == 1.0
  {
    var phase := PhaseSeconds(t);
    match StageOf(t)
    case ShowAverage => RMin(1.0, (phase - 1.0) / 1.5 * 2.0)
    case ShowModes => RMax(0.0, 1.0 - (phase - 2.5) / 2.5 * 1.5)
    case _ => 0.0
  }

  /** The opacity `update` gives the set-based prediction at frame `t`. */
  function SetAlpha(t: nat): (r: real)
    ensures 0.0 <= r <= 1.0
    ensures StageOf(t) == SelectNeighbors || StageOf(t) == ShowAverage ==> r == 0.0
    ensures StageOf(t) == Hold ==> r == 1.0
    ensures t % CycleTicks == 125 ==> r == 0.0
  {
    var phase := PhaseSeconds(t);
    match StageOf(t)
    case ShowModes => RMin(1.0, (phase - 2.5) / 2.5 * 2.0)
    case Hold => 1.0
    case _ => 0.0
  }

  // ------------------------------------------------------------ aggregation

  ghost predicate IndicesIn(sel: seq<Selected>, n: nat)
  {
    forall i :: 0 <= i < |sel| ==> sel[i].idx < n
  }

  /** The current positions of the selected points. */
  function PositionsOf(sel: seq<Selected>, all: seq<Point>): (r: seq<Vec>)
    requires IndicesIn(sel, |all|)
    ensures |r| == |sel|
    ensures forall i :: 0 <= i < |r| ==> r[i] == Position(all[sel[i].idx])
  {
    seq(|sel|, i requires 0 <= i < |sel| => Position(all[sel[i].idx]))
  }

  /** `selected.filter(n => n.cluster === c)`. */
  function InCluster(sel: seq<Selected>, c: Cluster): (r: seq<Selected>)
    ensures |r| <= |sel|
    ensures forall i :: 0 <= i < |r| ==> r[i] in sel && r[i].cluster == c
    // nothing of cluster `c` is dropped
    ensures forall i :: 0 <= i < |sel| && sel[i].cluster == c ==> sel[i] in r
    decreases |sel|
  {
    if |sel| == 0 then []
    else
      var s', last := sel[..|sel| - 1], sel[|sel| - 1];
      assert sel == s' + [last];
      assert forall i :: 0 <= i < |s'| ==> s'[i] == sel[i];
      InCluster(s', c) + (if last.cluster == c then [last] else [])
  }

  /** Each entry of cluster `c` is kept as often as it occurs, every other entry never. */
  lemma {:induction false} InClusterCounts(sel: seq<Selected>, c: Cluster)
    ensures forall x :: multiset(InCluster(sel, c))[x] == if x.cluster == c then multiset(sel)[x] else 0
    decreases |sel|
  {
    if |sel| > 0 {
      var s', last := sel[..|sel| - 1], sel[|sel| - 1];
      InClusterCounts(s', c);
      assert sel == s' + [last];
      assert InCluster(sel, c) == InCluster(s', c) + (if last.cluster == c then [last] else []);
    }
  }

  /** Filtering one more entry appends it exactly when it carries label `c`. */
  lemma InClusterPush(s: seq<Selected>, last: Selected, c: Cluster)
    ensures InCluster(s + [last], c) == InCluster(s, c) + (if last.cluster == c then [last] else [])
  {
    var t := s + [last];
    assert t[..|t| - 1] == s;
  }

  /** The filter keeps the order of its input: filtering a concatenation concatenates the filtered parts. */
  lemma {:induction false} InClusterAppend(a: seq<Selected>, b: seq<Selected>, c: Cluster)
    ensures InCluster(a + b, c) == InCluster(a, c) + InCluster(b, c)
    decreases |b|
  {
    if |b| == 0 {
      assert a + b == a;
    } else {
      var b', last := b[..|b| - 1], b[|b| - 1];
      var tail := if last.cluster == c then [last] else [];
      var fa, fb' := InCluster(a, c), InCluster(b', c);
      assert InCluster(a + b', c) == fa + fb' by { InClusterAppend(a, b', c); }
      assert InCluster(a + b, c) == InCluster(a + b', c) + tail by {
        assert a + b == (a + b') + [last];
        InClusterPush(a + b', last, c);
      }
      assert InCluster(b, c) == fb' + tail by {
        assert b == b' + [last];
        InClusterPush(b', last, c);
      }
      assert (fa + fb') + tail == fa + (fb' + tail);
    }
  }

  /** Some selected point carries label `c`. */
  predicate Present(sel: seq<Selected>, c: Cluster)
  {
    |InCluster(sel, c)| > 0
  }

  lemma {:induction false} InClusterNonEmpty(sel: seq<Selected>, c: Cluster)
    ensures Present(sel, c) <==> exists i :: 0 <= i < |sel| && sel[i].cluster == c
    decreases |sel|
  {
    if |sel| > 0 {
      var s' := sel[..|sel| - 1];
      InClusterNonEmpty(s', c);
      if exists i :: 0 <= i < |s'| && s'[i].cluster == c {
        var i :| 0 <= i < |s'| && s'[i].cluster == c;
        assert sel[i] == s'[i];
      }
      if (exists i :: 0 <= i < |sel| && sel[i].cluster == c) && sel[|sel| - 1].cluster != c {
        var i :| 0 <= i < |sel| && sel[i].cluster == c;
        assert s'[i] == sel[i];
      }
    }
  }

  /** When every entry is in cluster `c`, the filter keeps them all. */
  lemma {:induction false} InClusterAll(sel: seq<Selected>, c: Cluster)
    requires forall i :: 0 <= i < |sel| ==> sel[i].cluster == c
    ensures InCluster(sel, c) == sel
    decreases |sel|
  {
    if |sel| > 0 {
      var s' := sel[..|sel| - 1];
      InClusterAll(s', c);
      assert sel == s' + [sel[|sel| - 1]];
    }
  }

  /**
   * `setPrediction.modes`: the mean of cluster A's selected points if there
   * are any, then the mean of cluster B's if there are any.
   */
  function Modes(sel: seq<Selected>, all: seq<Point>): (r: seq<Vec>)
    requires IndicesIn(sel, |all|)
    ensures |r| == (if Present(sel, A) then 1 else 0) + (if Present(sel, B) then 1 else 0)
    ensures |r| <= 2
    ensures Present(sel, A) ==> r[0] == Mean(PositionsOf(InCluster(sel, A), all))
    ensures Present(sel, B) ==> r[|r| - 1] == Mean(PositionsOf(InCluster(sel, B), all))
  {
    var inA, inB := InCluster(sel, A), InCluster(sel, B);
    (if |inA| > 0 then [Mean(PositionsOf(inA, all))] else [])
      + (if |inB| > 0 then [Mean(PositionsOf(inB, all))] else [])
  }

  /** With only one cluster among the selected points, its mode is the plain average. */
  lemma SingleModeIsAverage(sel: seq<Selected>, all: seq<Point>, c: Cluster)
    requires IndicesIn(sel, |all|) && |sel| > 0
    requires forall i :: 0 <= i < |sel| ==> sel[i].cluster == c
    ensures Modes(sel, all) == [Mean(PositionsOf(sel, all))]
  {
    InClusterAll(sel, c);
    var other := if c == A then B else A;
    InClusterNonEmpty(sel, other);
  }

  lemma {:induction false} PositionsOfAppend(a: seq<Selected>, b: seq<Selected>, all: seq<Point>)
    requires IndicesIn(a, |all|) && IndicesIn(b, |all|)
    ensures IndicesIn(a + b, |all|)
    ensures PositionsOf(a + b, all) == PositionsOf(a, all) + PositionsOf(b, all)
  {
  }

  /** Appending one entry adds its position to its own cluster's sum only. */
  lemma InClusterSnoc(sel: seq<Selected>, last: Selected, c: Cluster, all: seq<Point>)
    requires IndicesIn(sel + [last], |all|)
    ensures Sum(PositionsOf(InCluster(sel + [last], c), all)) ==
              Add(Sum(PositionsOf(InCluster(sel, c), all)),
                  if last.cluster == c then Position(all[last.idx]) else Vec(0.0, 0.0))
  {
    var s := sel + [last];
    assert s[..|s| - 1] == sel;
    var tail := if last.cluster == c then [last] else [];
    assert InCluster(s, c) == InCluster(sel, c) + tail;
    PositionsOfAppend(InCluster(sel, c), tail, all);
    SumAppend(PositionsOf(InCluster(sel, c), all), PositionsOf(tail, all));
    if last.cluster == c {
      assert PositionsOf(tail, all) == [Position(all[last.idx])];
      assert [Position(all[last.idx])][..0] == [];
    } else {
      assert PositionsOf(tail, all) == [];
    }
  }

  /** The sum of the positions of the entries labelled `c`, accumulated left to right. */
  ghost function ClusterSum(sel: seq<Selected>, all: seq<Point>, c: Cluster): Vec
    requires IndicesIn(sel, |all|)
    decreases |sel|
  {
    if |sel| == 0 then Vec(0.0, 0.0)
    else
      var last := sel[|sel| - 1];
      Add(ClusterSum(sel[..|sel| - 1], all, c), if last.cluster == c then Position(all[last.idx]) else Vec(0.0, 0.0))
  }

  /** The sum of the positions `selected.filter(n => n.cluster === c)` keeps. */
  ghost function FilteredSum(sel: seq<Selected>, all: seq<Point>, c: Cluster): Vec
    requires IndicesIn(sel, |all|)
  {
    Sum(PositionsOf(InCluster(sel, c), all))
  }

  lemma {:induction false} ClusterSumIsFilteredSum(sel: seq<Selected>, all: seq<Point>, c: Cluster)
    requires IndicesIn(sel, |all|)
    ensures ClusterSum(sel, all, c) == FilteredSum(sel, all, c)
    decreases |sel|
  {
    if |sel| > 0 {
      var s' := sel[..|sel| - 1];
      var last := sel[|sel| - 1];
      var d := if last.cluster == c then Position(all[last.idx]) else Vec(0.0, 0.0);
      ClusterSumIsFilteredSum(s', all, c);
      assert ClusterSum(sel, all, c) == Add(ClusterSum(s', all, c), d);
      assert FilteredSum(sel, all, c) == Add(FilteredSum(s', all, c), d) by {
        assert sel == s' + [last];
        InClusterSnoc(s', last, c, all);
      }
    }
  }

  /** `total` is the component-wise sum of `a` and `b`. */
  ghost predicate SumsTo(total: Vec, a: Vec, b: Vec)
  {
    total == Add(a, b)
  }

  lemma {:induction false} SumIsClusterSums(sel: seq<Selected>, all: seq<Point>)
    requires IndicesIn(sel, |all|)
    ensures SumsTo(Sum(PositionsOf(sel, all)), ClusterSum(sel, all, A), ClusterSum(sel, all, B))
    decreases |sel|
  {
    if |sel| > 0 {
      var s' := sel[..|sel| - 1];
      var last := sel[|sel| - 1];
      var ps := PositionsOf(sel, all);
      assert ps[..|ps| - 1] == PositionsOf(s', all);
      SumIsClusterSums(s', all);
      var total', a', b' := Sum(PositionsOf(s', all)), ClusterSum(s', all, A), ClusterSum(s', all, B);
      var p := Position(all[last.idx]);
      assert Sum(ps) == Add(total', p);
      assert ClusterSum(sel, all, A) == Add(a', if last.cluster == A then p else Vec(0.0, 0.0));
      assert ClusterSum(sel, all, B) == Add(b', if last.cluster == B then p else Vec(0.0, 0.0));
    }
  }

  /** The selected points' sum is cluster A's sum plus cluster B's. */
  lemma SumSplitsByCluster(sel: seq<Selected>, all: seq<Point>)
    requires IndicesIn(sel, |all|)
    ensures Sum(PositionsOf(sel, all)) ==
              Add(Sum(PositionsOf(InCluster(sel, A), all)), Sum(PositionsOf(InCluster(sel, B), all)))
  {
    SumIsClusterSums(sel, all);
    assert SumsTo(Sum(PositionsOf(sel, all)), ClusterSum(sel, all, A), ClusterSum(sel, all, B));
    ClusterSumIsFilteredSum(sel, all, A);
    ClusterSumIsFilteredSum(sel, all, B);
    assert FilteredSum(sel, all, A) == Sum(PositionsOf(InCluster(sel, A), all));
    assert FilteredSum(sel, all, B) == Sum(PositionsOf(InCluster(sel, B), all));
  }

  /** Every selected entry is in exactly one of the two filters. */
  lemma {:induction false} InClusterPartition(sel: seq<Selected>)
    ensures |InCluster(sel, A)| + |InCluster(sel, B)| == |sel|
    decreases |sel|
  {
    if |sel| > 0 {
      InClusterPartition(sel[..|sel| - 1]);
    }
  }

  /**
   * The plain average is the count-weighted combination of the two modes:
   * with neighbours in both clusters it lies between them, near neither.
   */
  lemma AverageIsWeightedModes(sel: seq<Selected>, all: seq<Point>)
    requires IndicesIn(sel, |all|)
    requires Present(sel, A) && Present(sel, B)
    ensures |sel| == |InCluster(sel, A)| + |InCluster(sel, B)|
    ensures Modes(sel, all) == [Mean(PositionsOf(InCluster(sel, A), all)), Mean(PositionsOf(InCluster(sel, B), all))]
    ensures Weighted(Mean(PositionsOf(sel, all)), |sel|, Modes(sel, all)[0], |InCluster(sel, A)|,
                     Modes(sel, all)[1], |InCluster(sel, B)|)
  {
    InClusterPartition(sel);
    SumSplitsByCluster(sel, all);
    var ps, pa, pb := PositionsOf(sel, all), PositionsOf(InCluster(sel, A), all), PositionsOf(InCluster(sel, B), all);
    assert Modes(sel, all) == [Mean(pa), Mean(pb)];
    MeanOfSplit(ps, pa, pb);
  }

  /** `avg` is the mean of `n` points made of `na` points with mean `ma` and `nb` with mean `mb`. */
  ghost predicate Weighted(avg: Vec, n: nat, ma: Vec, na: nat, mb: Vec, nb: nat)
  {
    && avg.x * n as real == ma.x * na as real + mb.x * nb as real
    && avg.y * n as real == ma.y * na as real + mb.y * nb as real
  }

  /** The mean of a sequence whose sum splits into two parts, weighted by the parts' sizes. */
  lemma MeanOfSplit(ps: seq<Vec>, pa: seq<Vec>, pb: seq<Vec>)
    requires |pa| > 0 && |pb| > 0 && |ps| == |pa| + |pb|
    requires Sum(ps) == Add(Sum(pa), Sum(pb))
    ensures Weighted(Mean(ps), |ps|, Mean(pa), |pa|, Mean(pb), |pb|)
  {
  }

  // ------------------------------------------------------------- animation

  /** `time` in seconds at frame `t`. */
  function Seconds(t: nat): real
  {
    t as real * 0.02
  }

  /**
   * The gentle floating of one point at frame `t`: its rest position plus a
   * sine and a cosine wobble of amplitude 3.  `sin` and `cos` stand for
   * `Math.sin` and `Math.cos`.
   */
  function Floated(p: Point, t: nat, sin: real -> real, cos: real -> real): (r: Point)
    ensures r.baseX == p.baseX && r.baseY == p.baseY
    ensures Bounded(sin) ==> p.baseX - 3.0 <= r.x <= p.baseX + 3.0
    ensures Bounded(cos) ==> p.baseY - 3.0 <= r.y <= p.baseY + 3.0
  {
    var time := Seconds(t);
    Point(p.baseX + sin(time + p.baseX * 0.01) * 3.0, p.baseY + cos(time + p.baseY * 0.01) * 3.0, p.baseX, p.baseY)
  }

  /** The `forEach` that moves every point of a cluster in place. */
  method FloatPoints(points: seq<Point>, t: nat, sin: real -> real, cos: real -> real) returns (r: seq<Point>)
    ensures |r| == |points|
    ensures forall i :: 0 <= i < |r| ==> r[i] == Floated(points[i], t, sin, cos)
  {
    r := points;
    var i := 0;
    while i < |r|
      invariant 0 <= i <= |r| == |points|
      invariant forall j :: 0 <= j < i ==> r[j] == Floated(points[j], t, sin, cos)
      invariant forall j :: i <= j < |r| ==> r[j] == points[j]
    {
      r := r[i := Floated(r[i], t, sin, cos)];
      i := i + 1;
    }
  }

  /** The demo's state: the clusters, the query's selection and the two predictions. */
  class MultimodalSection {
    /** `queryState.x`, `queryState.y`: the query never moves. */
    const query: Vec
    var ticks: nat
    var clusterA: seq<Point>
    var clusterB: seq<Point>
    var selected: seq<Selected>
    /** `avgPrediction` */
    var averageX: real
    var averageY: real
    var avgAlpha: real
    /** `setPrediction` */
    var modes: seq<Vec>
    var setAlpha: real

    ghost function AllPoints(): seq<Point>
      reads this`clusterA, this`clusterB
    {
      clusterA + clusterB
    }

    ghost predicate Valid()
      reads this
    {
      && |clusterA| == NumPerCluster && |clusterB| == NumPerCluster
      && IndicesIn(selected, 2 * NumPerCluster)
      && (ticks > 0 ==> |selected| == SelectCount)
      && 0.0 <= avgAlpha <= 1.0 && 0.0 <= setAlpha <= 1.0
      && |modes| <= 2
    }

    /** Page load: the state literals, then `reset()` with freshly generated clusters. */
    constructor (a: seq<Point>, b: seq<Point>)
      requires |a| == NumPerCluster && |b| == NumPerCluster
      ensures Valid()
      ensures query == Vec(410.0, 150.0)
      ensures ticks == 0 && clusterA == a && clusterB == b && selected == []
      ensures averageX == 0.0 && averageY == 0.0 && avgAlpha == 0.0 && modes == [] && setAlpha == 0.0
    {
      query := Vec(410.0, 150.0);
      averageX, averageY, avgAlpha := 0.0, 0.0, 0.0;
      modes, setAlpha := [], 0.0;
      ticks := 0;
      clusterA, clusterB := a, b;
      selected := [];
    }

    /**
     * `reset()`: time back to zero, the clusters replaced by freshly
     * generated ones, no selection, no modes, both predictions hidden.  The
     * averaged prediction's position is not touched.
     */
    method Reset(a: seq<Point>, b: seq<Point>)
      requires Valid()
      requires |a| == NumPerCluster && |b| == NumPerCluster
      modifies this
      ensures Valid()
      ensures ticks == 0 && clusterA == a && clusterB == b
      ensures selected == [] && modes == [] && avgAlpha == 0.0 && setAlpha == 0.0
      ensures averageX == old(averageX) && averageY == old(averageY)
    {
      ticks := 0;
      clusterA, clusterB := a, b;
      selected := [];
      avgAlpha := 0.0;
      setAlpha := 0.0;
      modes := [];
    }

    /** One animation frame, `update()`. */
    method Update(sin: real -> real, cos: real -> real)
      requires Valid()
      modifies this
      ensures Valid()
      ensures ticks == old(ticks) + 1
      ensures |clusterA| == |old(clusterA)| && |clusterB| == |old(clusterB)|
      ensures forall i :: 0 <= i < |clusterA| ==> clusterA[i] == Floated(old(clusterA)[i], ticks, sin, cos)
      ensures forall i :: 0 <= i < |clusterB| ==> clusterB[i] == Floated(old(clusterB)[i], ticks, sin, cos)
      ensures avgAlpha == AverageAlpha(ticks) && setAlpha == SetAlpha(ticks)
      ensures StageOf(ticks) == SelectNeighbors ==>
                && selected == FindKNearest(clusterA, clusterB, query, SelectCount)
                && averageX == old(averageX) && averageY == old(averageY) && modes == old(modes)
      ensures StageOf(ticks) == ShowAverage ==>
                && selected == old(selected) && modes == old(modes)
                && Vec(averageX, averageY) == Mean(PositionsOf(selected, AllPoints()))
      ensures StageOf(ticks) == ShowModes ==>
                && selected == old(selected) && averageX == old(averageX) && averageY == old(averageY)
                && modes == Modes(selected, AllPoints())
      ensures StageOf(ticks) == Hold ==>
                selected == old(selected) && averageX == old(averageX) && averageY == old(averageY) && modes == old(modes)
    {
      ticks := ticks + 1;
      clusterA := FloatPoints(clusterA, ticks, sin, cos);
      clusterB := FloatPoints(clusterB, ticks, sin, cos);
      ApplyStage();
    }

    /** The `phase` branches of `update()`, after the clock and the points have moved. */
    method ApplyStage()
      requires |clusterA| == NumPerCluster && |clusterB| == NumPerCluster && ticks > 0
      requires IndicesIn(selected, 2 * NumPerCluster) && |modes| <= 2
      requires StageOf(ticks) != SelectNeighbors ==> |selected| == SelectCount
      modifies `selected, `averageX, `averageY, `avgAlpha, `modes, `setAlpha
      ensures Valid()
      ensures avgAlpha == AverageAlpha(ticks) && setAlpha == SetAlpha(ticks)
      ensures StageOf(ticks) == SelectNeighbors ==>
                && selected == FindKNearest(clusterA, clusterB, query, SelectCount)
                && averageX == old(averageX) && averageY == old(averageY) && modes == old(modes)
      ensures StageOf(ticks) == ShowAverage ==>
                && selected == old(selected) && modes == old(modes)
                && Vec(averageX, averageY) == Mean(PositionsOf(selected, AllPoints()))
      ensures StageOf(ticks) == ShowModes ==>
                && selected == old(selected) && averageX == old(averageX) && averageY == old(averageY)
                && modes == Modes(selected, AllPoints())
      ensures StageOf(ticks) == Hold ==>
                selected == old(selected) && averageX == old(averageX) && averageY == old(averageY) && modes == old(modes)
    {
      match StageOf(ticks)
      case SelectNeighbors => SelectStage();
      case ShowAverage => AverageStage();
      case ShowModes => ModesStage();
      case Hold => HoldStage();
    }

    /** `phase < 1`: pick the neighbours, hide both predictions. */
    method SelectStage()
      requires StageOf(ticks) == SelectNeighbors && |clusterA| == NumPerCluster && |clusterB| == NumPerCluster
      modifies `selected, `avgAlpha, `setAlpha
      ensures selected == FindKNearest(clusterA, clusterB, query, SelectCount)
      ensures avgAlpha == AverageAlpha(ticks) && setAlpha == SetAlpha(ticks)
    {
      assert AverageAlpha(ticks) == 0.0 && SetAlpha(ticks) == 0.0;
      avgAlpha := 0.0;
      setAlpha := 0.0;
      selected := FindKNearest(clusterA, clusterB, query, SelectCount);
    }

    /** `phase < 2.5`: fade in the average of the selected points. */
    method AverageStage()
      requires StageOf(ticks) == ShowAverage && IndicesIn(selected, |clusterA| + |clusterB|) && |selected| > 0
      modifies `averageX, `averageY, `avgAlpha, `setAlpha
      ensures Vec(averageX, averageY) == Mean(PositionsOf(selected, AllPoints()))
      ensures avgAlpha == AverageAlpha(ticks) && setAlpha == SetAlpha(ticks)
    {
      var phase := PhaseSeconds(ticks);
      var progress := (phase - 1.0) / 1.5;
      avgAlpha := RMin(1.0, progress * 2.0);
      setAlpha := 0.0;
      assert avgAlpha == AverageAlpha(ticks) && setAlpha == SetAlpha(ticks);
      var avg := Mean(PositionsOf(selected, clusterA + clusterB));
      averageX, averageY := avg.x, avg.y;
    }

    /** `phase < 5`: fade in the per-cluster modes, fade out the average. */
    method ModesStage()
      requires StageOf(ticks) == ShowModes && IndicesIn(selected, |clusterA| + |clusterB|)
      modifies `modes, `avgAlpha, `setAlpha
      ensures modes == Modes(selected, AllPoints())
      ensures avgAlpha == AverageAlpha(ticks) && setAlpha == SetAlpha(ticks)
    {
      var phase := PhaseSeconds(ticks);
      var progress := (phase - 2.5) / 2.5;
      setAlpha := RMin(1.0, progress * 2.0);
      avgAlpha := RMax(0.0, 1.0 - progress * 1.5);
      assert avgAlpha == AverageAlpha(ticks) && setAlpha == SetAlpha(ticks);
      modes := Modes(selected, clusterA + clusterB);
    }

    /** Otherwise: the modes stay, fully shown. */
    method HoldStage()
      requires StageOf(ticks) == Hold
      modifies `avgAlpha, `setAlpha
      ensures avgAlpha == AverageAlpha(ticks) && setAlpha == SetAlpha(ticks)
    {
      avgAlpha := 0.0;
      setAlpha := 1.0;
    }
  }
}
