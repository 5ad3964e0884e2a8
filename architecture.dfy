/**
 * The architecture demo: a field of expert demonstrations (a state and an
 * action each), a hover query and a click-locked query, the k nearest
 * demonstrations of each query, a per-neighbour "corrected action"
 * prediction, and the mean of those predictions that the aggregation panel
 * shows.
 */
module Architecture {
  import opened Wrappers
  import opened Vectors
  import opened Knn

  /** NEIGHBOR_COUNT: how many demonstrations a query looks at. */
  const NeighborCount: nat := 5
  /** The coefficient that couples a demonstration's offset from the query into its prediction. */
  const Coupling: real := 0.015

  /** One expert demonstration `{ state, action }`. */
  datatype Demo = Demo(state: Vec, action: Vec)

  /**
   * One entry `{ idx, dist, demo }` returned by the neighbour search; the
   * handlers later write `prediction` into it (`None` until then).  `dist`
   * is the squared distance.
   */
  datatype Match = Match(idx: nat, dist: real, demo: Demo, prediction: Option<Vec>)

  /** Squared distance from `query` to every demonstration's state, in array order. */
  function Distances(demos: seq<Demo>, query: Vec): (r: seq<real>)
    ensures |r| == |demos|
    ensures forall i :: 0 <= i < |r| ==> r[i] == SqDist(query, demos[i].state)
  {
    seq(|demos|, i requires 0 <= i < |demos| => SqDist(query, demos[i].state))
  }

  /** Some entry of `r` is demonstration `m`. */
  predicate Returned(r: seq<Match>, m: nat)
  {
    exists i :: 0 <= i < |r| && r[i].idx == m
  }

  /** `findNearestNeighbors(query, k)`. */
  function FindNearestNeighbors(demos: seq<Demo>, query: Vec, k: nat): (r: seq<Match>)
    ensures |r| == Min(k, |demos|)
    ensures forall i :: 0 <= i < |r| ==>
              && r[i].idx < |demos| && r[i].demo == demos[r[i].idx]
              && r[i].dist == SqDist(query, r[i].demo.state) && r[i].prediction == None
    // ascending by distance, ties in array order, so no demonstration twice
    ensures forall i, j :: 0 <= i < j < |r| ==>
              r[i].dist < r[j].dist || (r[i].dist == r[j].dist && r[i].idx < r[j].idx)
    // every demonstration left out comes after every one returned
    ensures forall m :: 0 <= m < |demos| && !Returned(r, m) ==>
              forall i :: 0 <= i < |r| ==>
                r[i].dist < SqDist(query, demos[m].state) || (r[i].dist == SqDist(query, demos[m].state) && r[i].idx < m)
    ensures k >= |demos| ==> forall m :: 0 <= m < |demos| ==> Returned(r, m)
  {
    var ns := NearestK(Distances(demos, query), k);
    MatchesFacts(demos, query, k, ns);
    ToMatches(demos, ns)
  }

  /** Each `{ idx, dist }` entry with its demonstration attached. */
  function ToMatches(demos: seq<Demo>, ns: seq<Neighbor>): (r: seq<Match>)
    requires forall i :: 0 <= i < |ns| ==> ns[i].idx < |demos|
    ensures |r| == |ns|
    ensures forall i :: 0 <= i < |r| ==> r[i] == Match(ns[i].idx, ns[i].dist, demos[ns[i].idx], None)
  {
    seq(|ns|, i requires 0 <= i < |ns| => Match(ns[i].idx, ns[i].dist, demos[ns[i].idx], None))
  }

  lemma MatchesFacts(demos: seq<Demo>, query: Vec, k: nat, ns: seq<Neighbor>)
    requires ns == NearestK(Distances(demos, query), k)
    ensures var r := ToMatches(demos, ns);
      && (forall m :: 0 <= m < |demos| && !Returned(r, m) ==> forall i :: 0 <= i < |ns| ==> ns[i].idx != m)
      && (k >= |demos| ==> forall m :: 0 <= m < |demos| ==> Returned(r, m))
  {
    var d := Distances(demos, query);
    var r := ToMatches(demos, ns);
    forall m | 0 <= m < |demos| && !Returned(r, m) ensures forall i :: 0 <= i < |ns| ==> ns[i].idx != m {
      forall i | 0 <= i < |ns| ensures ns[i].idx != m {
        assert r[i].idx == ns[i].idx;
      }
    }
    if k >= |demos| {
      forall m | 0 <= m < |demos| ensures Returned(r, m) {
        assert Neighbor(m, d[m]) in ns;
        var i :| 0 <= i < |ns| && ns[i] == Neighbor(m, d[m]);
        assert r[i].idx == m;
      }
    }
  }

  /** The simulated f_θ output: the action, nudged by the demonstration's offset from the query. */
  function Predict(demo: Demo, query: Vec): Vec
  {
    Vec(demo.action.x + (demo.state.x - query.x) * Coupling,
        demo.action.y + (demo.state.y - query.y) * Coupling)
  }

  /** Every entry carries its prediction for `query`. */
  ghost predicate PredictedFor(ns: seq<Match>, query: Vec)
  {
    forall i :: 0 <= i < |ns| ==> ns[i].prediction == Some(Predict(ns[i].demo, query))
  }

  predicate HasPredictions(ns: seq<Match>)
  {
    forall i :: 0 <= i < |ns| ==> ns[i].prediction.Some?
  }

  /**
   * The `forEach` that writes `n.prediction` into every neighbour entry;
   * everything else in each entry stays as it was.
   */
  method AttachPredictions(ns: seq<Match>, query: Vec) returns (r: seq<Match>)
    ensures |r| == |ns|
    ensures forall i :: 0 <= i < |r| ==> r[i] == ns[i].(prediction := Some(Predict(ns[i].demo, query)))
    ensures PredictedFor(r, query) && HasPredictions(r)
  {
    r := ns;
    var i := 0;
    while i < |r|
      invariant 0 <= i <= |r| == |ns|
      invariant forall j :: 0 <= j < i ==> r[j] == ns[j].(prediction := Some(Predict(ns[j].demo, query)))
      invariant forall j :: i <= j < |r| ==> r[j] == ns[j]
    {
      var n := r[i];
      var prediction := Predict(n.demo, query);
      r := r[i := n.(prediction := Some(prediction))];
      i := i + 1;
    }
  }

  function Predictions(ns: seq<Match>): (r: seq<Vec>)
    requires HasPredictions(ns)
    ensures |r| == |ns|
    ensures forall i :: 0 <= i < |r| ==> Some(r[i]) == ns[i].prediction
  {
    seq(|ns|, i requires 0 <= i < |ns| => ns[i].prediction.value)
  }

  function States(ns: seq<Match>): (r: seq<Vec>)
    ensures |r| == |ns|
    ensures forall i :: 0 <= i < |r| ==> r[i] == ns[i].demo.state
  {
    seq(|ns|, i requires 0 <= i < |ns| => ns[i].demo.state)
  }

  function Actions(ns: seq<Match>): (r: seq<Vec>)
    ensures |r| == |ns|
    ensures forall i :: 0 <= i < |r| ==> r[i] == ns[i].demo.action
  {
    seq(|ns|, i requires 0 <= i < |ns| => ns[i].demo.action)
  }

  /**
   * The aggregate `â_q = 1/k Σ a'_i` of `updateAggregation`: nothing for an
   * empty neighbour list, otherwise the component-wise sum of the
   * predictions divided by their count.
   */
  function MeanPrediction(ns: seq<Match>): (r: Option<Vec>)
    requires HasPredictions(ns)
    ensures r.None? <==> |ns| == 0
    ensures r.Some? ==> (r.value.x * |ns| as real == Sum(Predictions(ns)).x
                      && r.value.y * |ns| as real == Sum(Predictions(ns)).y)
    ensures |ns| == 1 ==> r == ns[0].prediction
  {
    if |ns| == 0 then None else Some(Mean(Predictions(ns)))
  }

  /** The running sums of the `forEach` in `draw`, divided by the count once the list is known to be non-empty. */
  method AveragePrediction(ns: seq<Match>) returns (avg: Option<Vec>)
    requires HasPredictions(ns)
    ensures avg == MeanPrediction(ns)
  {
    if |ns| == 0 {
      return None;
    }
    var avgDx, avgDy := 0.0, 0.0;
    var i := 0;
    while i < |ns|
      invariant 0 <= i <= |ns|
      invariant Vec(avgDx, avgDy) == Sum(Predictions(ns)[..i])
    {
      assert Predictions(ns)[..i + 1][..i] == Predictions(ns)[..i];
      avgDx := avgDx + ns[i].prediction.value.x;
      avgDy := avgDy + ns[i].prediction.value.y;
      i := i + 1;
    }
    assert Predictions(ns)[..i] == Predictions(ns);
    avg := Some(Vec(avgDx / |ns| as real, avgDy / |ns| as real));
  }

  /** Summing the predictions is summing the actions plus the coupled offsets. */
  lemma {:induction false} SumOfPredictions(ns: seq<Match>, query: Vec)
    requires HasPredictions(ns) && PredictedFor(ns, query)
    ensures Coupled(|ns| as real, Sum(Predictions(ns)).x, Sum(Actions(ns)).x, Sum(States(ns)).x, query.x)
    ensures Coupled(|ns| as real, Sum(Predictions(ns)).y, Sum(Actions(ns)).y, Sum(States(ns)).y, query.y)
    decreases |ns|
  {
    if |ns| > 0 {
      var ns' := ns[..|ns| - 1];
      assert Predictions(ns)[..|ns| - 1] == Predictions(ns');
      assert Actions(ns)[..|ns| - 1] == Actions(ns');
      assert States(ns)[..|ns| - 1] == States(ns');
      SumOfPredictions(ns', query);
      var d := ns[|ns| - 1].demo;
      assert Predictions(ns)[|ns| - 1] == Predict(d, query);
      assert Sum(Predictions(ns)) == Add(Sum(Predictions(ns')), Predict(d, query));
      assert Sum(Actions(ns)) == Add(Sum(Actions(ns')), d.action);
      assert Sum(States(ns)) == Add(Sum(States(ns')), d.state);
      CoupledStep(|ns'| as real, |ns| as real, Sum(Predictions(ns')).x, Sum(Actions(ns')).x, Sum(States(ns')).x,
                  d.action.x, d.state.x, query.x);
      CoupledStep(|ns'| as real, |ns| as real, Sum(Predictions(ns')).y, Sum(Actions(ns')).y, Sum(States(ns')).y,
                  d.action.y, d.state.y, query.y);
    }
  }

  /** A sum of n predictions against the sums of their actions and states: p == a + c·(s − n·q). */
  ghost predicate Coupled(n: real, p: real, a: real, s: real, q: real)
  {
    p == a + Coupling * (s - n * q)
  }

  /** One induction step of SumOfPredictions, on a single component. */
  lemma CoupledStep(n: real, m: real, p: real, a: real, s: real, da: real, ds: real, q: real)
    requires m == n + 1.0
    requires Coupled(n, p, a, s, q)
    ensures Coupled(m, p + (da + (ds - q) * Coupling), a + da, s + ds, q)
  {
    assert m * q == n * q + q;
  }

  /**
   * The aggregate prediction is the mean action, corrected by the coupled
   * offset of the mean neighbour state from the query.
   */
  lemma MeanPredictionIsCorrectedMeanAction(ns: seq<Match>, query: Vec)
    requires |ns| > 0
    requires HasPredictions(ns) && PredictedFor(ns, query)
    ensures MeanPrediction(ns) == Some(Add(Mean(Actions(ns)), Scale(Coupling, Sub(Mean(States(ns)), query))))
  {
    SumOfPredictions(ns, query);
    var n := |ns| as real;
    var p, a, s := Mean(Predictions(ns)), Mean(Actions(ns)), Mean(States(ns));
    CancelCount(n, p.x, a.x, s.x, query.x, Sum(Predictions(ns)).x, Sum(Actions(ns)).x, Sum(States(ns)).x);
    CancelCount(n, p.y, a.y, s.y, query.y, Sum(Predictions(ns)).y, Sum(Actions(ns)).y, Sum(States(ns)).y);
  }

  /** Dividing P == A + c·(S − n·q) by the count n > 0. */
  lemma CancelCount(n: real, p: real, a: real, s: real, q: real, sumP: real, sumA: real, sumS: real)
    requires 0.0 < n
    requires p * n == sumP && a * n == sumA && s * n == sumS
    requires Coupled(n, sumP, sumA, sumS, q)
    ensures p == a + Coupling * (s - q)
  {
    assert (a + Coupling * (s - q)) * n == a * n + Coupling * (s * n - n * q);
    assert p * n == (a + Coupling * (s - q)) * n;
  }

  /** What the neighbour-cards and aggregation panels show. */
  datatype Panel =
    | Empty
    | Showing(query: Vec, neighbors: seq<Match>, aggregate: Vec)

  /** `updateNeighborCards(state, neighbors)` together with `updateAggregation(state, neighbors)`. */
  function PanelFor(state: Option<Vec>, ns: seq<Match>): (r: Panel)
    requires HasPredictions(ns)
    ensures r.Empty? <==> state.None? || |ns| == 0
    ensures r.Showing? ==> r.query == state.value && r.neighbors == ns && Some(r.aggregate) == MeanPrediction(ns)
  {
    if state.None? || |ns| == 0 then Empty else Showing(state.value, ns, Mean(Predictions(ns)))
  }

  /** The demo's module-level state. */
  class ArchitectureSection {
    var expertDemos: seq<Demo>
    var queryState: Option<Vec>
    var hoverState: Option<Vec>
    var nearestNeighbors: seq<Match>
    var hoverNeighbors: seq<Match>
    var panel: Panel

    ghost predicate Valid()
      reads this
    {
      && HasPredictions(nearestNeighbors) && HasPredictions(hoverNeighbors)
      && (queryState.None? ==> nearestNeighbors == [])
      && (hoverState.None? ==> hoverNeighbors == [])
    }

    /**
     * Page load: freshly generated demonstrations, no query, no hover.  The
     * script never writes the aggregation panel at load, so it shows whatever
     * the page's markup holds, `initialPanel`.
     */
    constructor (demos: seq<Demo>, initialPanel: Panel)
      ensures Valid()
      ensures expertDemos == demos && queryState == None && hoverState == None
      ensures nearestNeighbors == [] && hoverNeighbors == [] && panel == initialPanel
    {
      expertDemos := demos;
      queryState, hoverState := None, None;
      nearestNeighbors, hoverNeighbors := [], [];
      panel := initialPanel;
    }

    /** The resize handler: the demonstrations are regenerated; queries and neighbour lists are left as they were. */
    method Resize(demos: seq<Demo>)
      requires Valid()
      modifies this
      ensures Valid()
      ensures expertDemos == demos
      ensures queryState == old(queryState) && hoverState == old(hoverState)
      ensures nearestNeighbors == old(nearestNeighbors) && hoverNeighbors == old(hoverNeighbors)
      ensures panel == old(panel)
    {
      expertDemos := demos;
    }

    /** `handleMouseMove`: a new hover query with its predicted neighbours; the locked query is untouched. */
    method HandleMouseMove(p: Vec)
      requires Valid()
      modifies this
      ensures Valid()
      ensures hoverState == Some(p)
      ensures var f := FindNearestNeighbors(expertDemos, p, NeighborCount);
              |hoverNeighbors| == |f| &&
              forall i :: 0 <= i < |f| ==> hoverNeighbors[i] == f[i].(prediction := Some(Predict(f[i].demo, p)))
      ensures PredictedFor(hoverNeighbors, p)
      ensures expertDemos == old(expertDemos)
      ensures queryState == old(queryState) && nearestNeighbors == old(nearestNeighbors)
      ensures panel == if queryState.None? then PanelFor(hoverState, hoverNeighbors) else old(panel)
    {
      hoverState := Some(p);
      var found := FindNearestNeighbors(expertDemos, p, NeighborCount);
      hoverNeighbors := AttachPredictions(found, p);
      if queryState.None? {
        panel := PanelFor(hoverState, hoverNeighbors);
      }
    }

    /** `handleMouseLeave`: the hover query disappears; the locked query is untouched. */
    method HandleMouseLeave()
      requires Valid()
      modifies this
      ensures Valid()
      ensures hoverState == None && hoverNeighbors == []
      ensures expertDemos == old(expertDemos)
      ensures queryState == old(queryState) && nearestNeighbors == old(nearestNeighbors)
      ensures panel == if queryState.None? then Empty else old(panel)
    {
      hoverState := None;
      hoverNeighbors := [];
      if queryState.None? {
        panel := PanelFor(None, []);
      }
    }

    /**
     * `handleClick`: unlocks a locked query, or locks the query at `p` with
     * its predicted neighbours.  Unlocking only redraws the canvas, so the
     * panels keep what they showed.
     */
    method HandleClick(p: Vec)
      requires Valid()
      modifies this
      ensures Valid()
      ensures queryState.Some? <==> old(queryState).None?
      ensures old(queryState).Some? ==>
                queryState == None && nearestNeighbors == [] && panel == old(panel)
      ensures old(queryState).None? ==>
                && queryState == Some(p)
                && (var f := FindNearestNeighbors(expertDemos, p, NeighborCount);
                    |nearestNeighbors| == |f| &&
                    forall i :: 0 <= i < |f| ==> nearestNeighbors[i] == f[i].(prediction := Some(Predict(f[i].demo, p))))
                && PredictedFor(nearestNeighbors, p)
                && panel == PanelFor(queryState, nearestNeighbors)
      ensures expertDemos == old(expertDemos)
      ensures hoverState == old(hoverState) && hoverNeighbors == old(hoverNeighbors)
    {
      if queryState.Some? {
        queryState := None;
        nearestNeighbors := [];
        return;
      }
      queryState := Some(p);
      var found := FindNearestNeighbors(expertDemos, p, NeighborCount);
      nearestNeighbors := AttachPredictions(found, p);
      panel := PanelFor(queryState, nearestNeighbors);
    }
  }

  /** Two clicks, wherever they land, leave an unlocked section unlocked again. */
  method ClickTwice(s: ArchitectureSection, p: Vec, q: Vec)
    requires s.Valid() && s.queryState.None?
    modifies s
    ensures s.Valid() && s.queryState.None? && s.nearestNeighbors == []
    ensures s.hoverState == old(s.hoverState) && s.hoverNeighbors == old(s.hoverNeighbors)
  {
    s.HandleClick(p);
    s.HandleClick(q);
  }

  /**
   * Three demonstrations at (0,0), (10,0) and (0,10) and a query at (1,1):
   * the two nearest are (0,0) and then (10,0), which ties with (0,10) and
   * wins by coming first in the array.
   */
  lemma TieBreakScenario(a: Vec, b: Vec, c: Vec)
    ensures var demos := [Demo(Vec(0.0, 0.0), a), Demo(Vec(10.0, 0.0), b), Demo(Vec(0.0, 10.0), c)];
            var r := FindNearestNeighbors(demos, Vec(1.0, 1.0), 2);
            |r| == 2 && r[0].idx == 0 && r[1].idx == 1
  {
    var demos := [Demo(Vec(0.0, 0.0), a), Demo(Vec(10.0, 0.0), b), Demo(Vec(0.0, 10.0), c)];
    var q := Vec(1.0, 1.0);
    var ns := NearestK(Distances(demos, q), 2);
    assert ns == [Neighbor(0, 2.0), Neighbor(1, 82.0)] by {
      assert Distances(demos, q) == [2.0, 82.0, 82.0];
      ScenarioRanking();
    }
    assert FindNearestNeighbors(demos, q, 2) == ToMatches(demos, ns);
  }

  /** The stable ranking of the scenario's squared distances 2, 82, 82. */
  lemma ScenarioRanking()
    ensures NearestK([2.0, 82.0, 82.0], 2) == [Neighbor(0, 2.0), Neighbor(1, 82.0)]
  {
    var n0, n1, n2 := Neighbor(0, 2.0), Neighbor(1, 82.0), Neighbor(2, 82.0);
    assert Ranked([2.0, 82.0, 82.0]) == [n0, n1, n2];
    assert SortByDist([n2]) == [n2];
    assert SortByDist([n1, n2]) == Insert(n1, [n2]) == [n1, n2];
    assert SortByDist([n0, n1, n2]) == Insert(n0, [n1, n2]) == [n0, n1, n2];
  }
}
