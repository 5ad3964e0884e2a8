/**
 * The divergence demo: a stream of expert demonstrations flowing left to
 * right around a horizontal manifold, a behaviour-cloning agent that drifts
 * away from it and never recovers, and a DARP agent that drifts at first and
 * is then pulled back by the mean height of its nearest demonstrations.
 *
 * Time is counted in frames: every `update` adds 0.016 s.  `Math.exp(-x)`,
 * `Math.sqrt` and `Math.sin` are parameters (`decay`, `sqrt`, `sin`), and
 * every `Math.random()` draw is an input in [0, 1).
 */
module Divergence {
  import opened Vectors
  import opened Knn

  const NumDemos: nat := 80
  const NoiseAmount: real := 40.0
  /** The longest trail an agent keeps. */
  const TrailCap: nat := 150
  /** The `k` of `findNearestNeighbors(darpAgent, 10)`. */
  const NeighborCount: nat := 10
  /** Horizontal speed of the agents and of every demonstration. */
  const Speed: real := 1.5
  const StartX: real := 100.0
  const DriftStep: real := 0.012
  /** `typicalNeighborDist` and `variance` of `calculateDeltaLikelihood`. */
  const TypicalNeighborDist: real := 30.0
  const Variance: real := 25.0

  /** One expert demonstration particle `{ x, y, vx, baseY }`. */
  datatype Demo = Demo(x: real, y: real, vx: real, baseY: real)

  /** One entry `{ idx, dist, demo }` of the neighbour search; `dist` is the squared distance. */
  datatype DemoMatch = DemoMatch(idx: nat, dist: real, demo: Demo)

  predicate IsDraw(r: real)
  {
    0.0 <= r < 1.0
  }

  predicate AllDraws(s: seq<real>)
  {
    forall i :: 0 <= i < |s| ==> IsDraw(s[i])
  }

  /** What the model relies on about `x => Math.exp(-x)`. */
  ghost predicate IsDecay(decay: real -> real)
  {
    && decay(0.0) == 1.0
    && (forall a :: 0.0 <= a ==> 0.0 < decay(a) <= 1.0)
    && (forall a, b :: 0.0 <= a <= b ==> decay(b) <= decay(a))
  }

  function Abs(a: real): real
  {
    if a < 0.0 then -a else a
  }

  // ------------------------------------------------------ neighbour search

  function Distances(demos: seq<Demo>, x: real, y: real): (r: seq<real>)
    ensures |r| == |demos|
    ensures forall i :: 0 <= i < |r| ==> r[i] == SqDist(Vec(x, y), Vec(demos[i].x, demos[i].y))
  {
    seq(|demos|, i requires 0 <= i < |demos| => SqDist(Vec(x, y), Vec(demos[i].x, demos[i].y)))
  }

  function ToDemoMatches(demos: seq<Demo>, ns: seq<Neighbor>): (r: seq<DemoMatch>)
    requires forall i :: 0 <= i < |ns| ==> ns[i].idx < |demos|
    ensures |r| == |ns|
    ensures forall i :: 0 <= i < |r| ==> r[i] == DemoMatch(ns[i].idx, ns[i].dist, demos[ns[i].idx])
  {
    seq(|ns|, i requires 0 <= i < |ns| => DemoMatch(ns[i].idx, ns[i].dist, demos[ns[i].idx]))
  }

  /** Some entry of `r` is demonstration `m`. */
  predicate Found(r: seq<DemoMatch>, m: nat)
  {
    exists i :: 0 <= i < |r| && r[i].idx == m
  }

  /** `findNearestNeighbors(agent, k)` for an agent at (`x`, `y`). */
  function FindNearestNeighbors(demos: seq<Demo>, x: real, y: real, k: nat): (r: seq<DemoMatch>)
    ensures |r| == Min(k, |demos|)
    ensures forall i :: 0 <= i < |r| ==>
              && r[i].idx < |demos| && r[i].demo == demos[r[i].idx]
              && r[i].dist == SqDist(Vec(x, y), Vec(r[i].demo.x, r[i].demo.y))
    ensures forall i, j :: 0 <= i < j < |r| ==>
              r[i].dist < r[j].dist || (r[i].dist == r[j].dist && r[i].idx < r[j].idx)
    ensures forall m :: 0 <= m < |demos| && !Found(r, m) ==>
              forall i :: 0 <= i < |r| ==>
                var d := SqDist(Vec(x, y), Vec(demos[m].x, demos[m].y));
                r[i].dist < d || (r[i].dist == d && r[i].idx < m)
  {
    var ns := NearestK(Distances(demos, x, y), k);
    LeftOutFacts(demos, ns);
    ToDemoMatches(demos, ns)
  }

  lemma LeftOutFacts(demos: seq<Demo>, ns: seq<Neighbor>)
    requires forall i :: 0 <= i < |ns| ==> ns[i].idx < |demos|
    ensures var r := ToDemoMatches(demos, ns);
            forall m :: 0 <= m < |demos| && !Found(r, m) ==> forall i :: 0 <= i < |ns| ==> ns[i].idx != m
  {
    var r := ToDemoMatches(demos, ns);
    forall m | 0 <= m < |demos| && !Found(r, m) ensures forall i :: 0 <= i < |ns| ==> ns[i].idx != m {
      forall i | 0 <= i < |ns| ensures ns[i].idx != m {
        assert r[i].idx == ns[i].idx;
      }
    }
  }

  // ------------------------------------------------------------ likelihoods

  /** `calculateLikelihood`: exponential decay with the distance from the expert manifold. */
  function Likelihood(y: real, baseY: real, decay: real -> real): (r: real)
    ensures 0.0 <= r
    ensures IsDecay(decay) ==> r <= 1.0
    ensures IsDecay(decay) && y == baseY ==> r == 1.0
  {
    RMax(0.0, decay(Abs(y - baseY) / 50.0))
  }

  /** The further an agent is from the manifold, the lower its likelihood. */
  lemma LikelihoodMonotone(y1: real, y2: real, baseY: real, decay: real -> real)
    requires IsDecay(decay)
    requires Abs(y1 - baseY) <= Abs(y2 - baseY)
    ensures Likelihood(y2, baseY, decay) <= Likelihood(y1, baseY, decay)
  {
    var a, b := Abs(y1 - baseY) / 50.0, Abs(y2 - baseY) / 50.0;
    assert 0.0 <= a <= b;
    assert decay(b) <= decay(a);
  }

  /** The length of the difference vector from the agent to one neighbour. */
  function DeltaMagnitude(n: DemoMatch, x: real, y: real, sqrt: real -> real): real
  {
    var dx, dy := n.demo.x - x, n.demo.y - y;
    sqrt(dx * dx + dy * dy)
  }

  /** The sum of the difference-vector lengths, accumulated left to right. */
  function DeltaSum(ns: seq<DemoMatch>, x: real, y: real, sqrt: real -> real): real
    decreases |ns|
  {
    if |ns| == 0 then 0.0 else DeltaSum(ns[..|ns| - 1], x, y, sqrt) + DeltaMagnitude(ns[|ns| - 1], x, y, sqrt)
  }

  /**
   * The score of an average difference-vector length: a Gaussian bump
   * around the typical expert-to-expert distance, mapped into [0.85, 0.95].
   */
  function DeltaScore(avg: real, decay: real -> real): (r: real)
    ensures 0.85 <= r <= 0.95
    ensures IsDecay(decay) ==> 0.85 < r
  {
    var raw := decay((avg - TypicalNeighborDist) * (avg - TypicalNeighborDist) / (2.0 * Variance * Variance));
    assert IsDecay(decay) ==> 0.0 < raw by {
      if IsDecay(decay) {
        var e := (avg - TypicalNeighborDist) * (avg - TypicalNeighborDist) / (2.0 * Variance * Variance);
        SquareNonNegative(avg - TypicalNeighborDist);
        assert 0.0 <= e;
      }
    }
    RMax(0.85, RMin(0.95, 0.85 + raw * 0.1))
  }

  lemma SquareNonNegative(a: real)
    ensures 0.0 <= a * a
  {
    if a < 0.0 {
      assert a * a == (-a) * (-a);
    }
  }

  lemma SquareMonotone(a: real, b: real)
    requires 0.0 <= a <= b
    ensures a * a <= b * b
  {
    assert a * a <= a * b;
  }

  /** Exactly the typical distance scores the top of the range. */
  lemma DeltaScorePeak(decay: real -> real)
    requires IsDecay(decay)
    ensures DeltaScore(TypicalNeighborDist, decay) == 0.95
  {
    assert (TypicalNeighborDist - TypicalNeighborDist) * (TypicalNeighborDist - TypicalNeighborDist)
             / (2.0 * Variance * Variance) == 0.0;
  }

  /** An average further from the typical distance never scores higher. */
  lemma DeltaScoreMonotone(avg1: real, avg2: real, decay: real -> real)
    requires IsDecay(decay)
    requires Abs(avg1 - TypicalNeighborDist) <= Abs(avg2 - TypicalNeighborDist)
    ensures DeltaScore(avg2, decay) <= DeltaScore(avg1, decay)
  {
    var d1, d2 := Abs(avg1 - TypicalNeighborDist), Abs(avg2 - TypicalNeighborDist);
    SquareMonotone(d1, d2);
    assert d1 * d1 == (avg1 - TypicalNeighborDist) * (avg1 - TypicalNeighborDist);
    assert d2 * d2 == (avg2 - TypicalNeighborDist) * (avg2 - TypicalNeighborDist);
    var e1 := (avg1 - TypicalNeighborDist) * (avg1 - TypicalNeighborDist) / (2.0 * Variance * Variance);
    var e2 := (avg2 - TypicalNeighborDist) * (avg2 - TypicalNeighborDist) / (2.0 * Variance * Variance);
    SquareNonNegative(d1);
    assert 0.0 <= e1 <= e2;
    assert decay(e2) <= decay(e1);
  }

  /** `calculateDeltaLikelihood`: 0.9 with no neighbours, else the score of the mean difference length. */
  function DeltaLikelihood(ns: seq<DemoMatch>, x: real, y: real, sqrt: real -> real, decay: real -> real): (r: real)
    ensures |ns| == 0 ==> r == 0.9
    ensures |ns| > 0 ==> 0.85 <= r <= 0.95
    ensures |ns| > 0 && IsDecay(decay) ==> 0.85 < r
  {
    if |ns| == 0 then 0.9 else DeltaScore(DeltaSum(ns, x, y, sqrt) / |ns| as real, decay)
  }

  /** The `forEach` summing loop of `calculateDeltaLikelihood`. */
  method CalculateDeltaLikelihood(ns: seq<DemoMatch>, x: real, y: real, sqrt: real -> real, decay: real -> real)
    returns (r: real)
    ensures r == DeltaLikelihood(ns, x, y, sqrt, decay)
  {
    if |ns| == 0 {
      return 0.9;
    }
    var avgDeltaMag := 0.0;
    var i := 0;
    while i < |ns|
      invariant 0 <= i <= |ns|
      invariant avgDeltaMag == DeltaSum(ns[..i], x, y, sqrt)
    {
      assert ns[..i + 1][..i] == ns[..i];
      avgDeltaMag := avgDeltaMag + DeltaMagnitude(ns[i], x, y, sqrt);
      i := i + 1;
    }
    assert ns[..i] == ns;
    avgDeltaMag := avgDeltaMag / |ns| as real;
    r := DeltaScore(avgDeltaMag, decay);
  }

  // ------------------------------------------------------ drift and recovery

  /** `time` in seconds at frame `t`. */
  function Seconds(t: nat): real
  {
    t as real * 0.016
  }

  /** `correctionStrength`: builds up with time, capped at 8 %. */
  function CorrectionStrength(t: nat): (r: real)
    ensures 0.0 <= r <= 0.08
    ensures r == 0.08 <==> t >= 25
  {
    RMin(Seconds(t) / 5.0, 0.08)
  }

  /** The sum of the neighbours' heights, accumulated left to right. */
  function HeightSum(ns: seq<DemoMatch>): real
    decreases |ns|
  {
    if |ns| == 0 then 0.0 else HeightSum(ns[..|ns| - 1]) + ns[|ns| - 1].demo.y
  }

  /** `correctionY`: a pull toward the neighbours' mean height, zero with no neighbours. */
  function CorrectionY(ns: seq<DemoMatch>, y: real, t: nat): (r: real)
    ensures |ns| == 0 ==> r == 0.0
    ensures |ns| > 0 ==> var gap := HeightSum(ns) / |ns| as real - y;
              if 0.0 <= gap then 0.0 <= r <= gap * 0.08 else gap * 0.08 <= r <= 0.0
  {
    if |ns| == 0 then 0.0
    else
      var avgNeighborY := HeightSum(ns) / |ns| as real;
      var gap := avgNeighborY - y;
      var s := CorrectionStrength(t);
      PullBounds(gap, s);
      gap * s
  }

  lemma PullBounds(gap: real, s: real)
    requires 0.0 <= s <= 0.08
    ensures 0.0 <= gap ==> 0.0 <= gap * s <= gap * 0.08
    ensures gap < 0.0 ==> gap * 0.08 <= gap * s <= 0.0
  {
    if 0.0 <= gap {
      assert gap * s <= gap * 0.08;
    } else {
      assert (-gap) * s <= (-gap) * 0.08;
    }
  }

  /** `driftAmount`: shrinks linearly with time and stays at zero once it gets there. */
  function DriftAmount(t: nat): (r: real)
    ensures 0.0 <= r <= 10.0
    ensures r == 0.0 <==> t >= 569
  {
    assert t <= 568 ==> t as real <= 568.0;
    RMax(0.0, 10.0 - Seconds(t) * 1.1)
  }

  /** Appending to a trail and dropping its oldest entry once it holds more than `TrailCap`. */
  function PushTrail(trail: seq<Vec>, p: Vec): (r: seq<Vec>)
    ensures |r| == if |trail| < TrailCap then |trail| + 1 else |trail|
    ensures |trail| <= TrailCap ==> |r| <= TrailCap
    ensures r[|r| - 1] == p
    // the newest points stay, in order; the oldest go first
    ensures r == (trail + [p])[|trail| + 1 - |r|..]
  {
    var t := trail + [p];
    if |t| > TrailCap then t[1..] else t
  }

  /** The trail left by a history of positions pushed one by one onto an empty trail. */
  function TrailOf(history: seq<Vec>): seq<Vec>
    decreases |history|
  {
    if |history| == 0 then [] else PushTrail(TrailOf(history[..|history| - 1]), history[|history| - 1])
  }

  /** A trail is always the latest `TrailCap` positions (or all of them, if fewer), oldest first. */
  lemma {:induction false} TrailKeepsLatest(history: seq<Vec>)
    ensures TrailOf(history) == history[|history| - Min(|history|, TrailCap)..]
    decreases |history|
  {
    if |history| > 0 {
      var n := |history|;
      var h', last := history[..n - 1], history[n - 1];
      assert history == h' + [last];
      assert TrailOf(history) == PushTrail(TrailOf(h'), last);
      TrailKeepsLatest(h');
      if n - 1 < TrailCap {
        TrailGrows(h', last);
      } else {
        TrailSlides(h', last);
      }
    }
  }

  /** A trail that is not yet full keeps every point. */
  lemma TrailGrows(h: seq<Vec>, last: Vec)
    requires |h| < TrailCap
    ensures PushTrail(h[|h| - Min(|h|, TrailCap)..], last) == h + [last]
  {
    assert h[|h| - Min(|h|, TrailCap)..] == h;
  }

  /** A full trail drops its oldest point as the new one comes in. */
  lemma TrailSlides(h: seq<Vec>, last: Vec)
    requires |h| >= TrailCap
    ensures PushTrail(h[|h| - Min(|h|, TrailCap)..], last) == (h + [last])[|h| + 1 - TrailCap..]
  {
    var t := h[|h| - TrailCap..];
    var u, v := (t + [last])[1..], (h + [last])[|h| + 1 - TrailCap..];
    assert |u| == |v|;
    forall k | 0 <= k < |u| ensures u[k] == v[k] {
      if k < TrailCap - 1 {
        assert u[k] == t[k + 1] == h[|h| - TrailCap + k + 1];
      }
    }
    assert u == v;
  }

  /** One demonstration's step: move right, wrap round at the right edge with a new rest height, drift vertically. */
  function StepDemo(d: Demo, width: real, baseY: real, wrapDraw: real, jitterDraw: real): (r: Demo)
    ensures r.vx == d.vx
    ensures d.x + d.vx > width + 20.0 ==> r.x == -20.0 && r.baseY == baseY + (wrapDraw - 0.5) * NoiseAmount
    ensures d.x + d.vx <= width + 20.0 ==> r.x == d.x + d.vx && r.baseY == d.baseY
    ensures IsDraw(wrapDraw) && baseY - 20.0 <= d.baseY < baseY + 20.0 ==> baseY - 20.0 <= r.baseY < baseY + 20.0
    // the vertical step: 5 % of the way to the rest height, plus a jitter of less than a quarter pixel
    ensures IsDraw(jitterDraw) ==>
              (r.baseY - d.y) * 0.05 - 0.25 <= r.y - d.y < (r.baseY - d.y) * 0.05 + 0.25
  {
    var x := d.x + d.vx;
    var wrapped := x > width + 20.0;
    var x' := if wrapped then -20.0 else x;
    var baseY' := if wrapped then baseY + (wrapDraw - 0.5) * NoiseAmount else d.baseY;
    Demo(x', d.y + (baseY' - d.y) * 0.05 + (jitterDraw - 0.5) * 0.5, d.vx, baseY')
  }

  /** The `forEach` over `expertDemos` of `update`. */
  method StepDemos(demos: seq<Demo>, width: real, baseY: real, wrapDraws: seq<real>, jitterDraws: seq<real>)
    returns (r: seq<Demo>)
    requires |wrapDraws| == |demos| && |jitterDraws| == |demos|
    ensures |r| == |demos|
    ensures forall i :: 0 <= i < |r| ==> r[i] == StepDemo(demos[i], width, baseY, wrapDraws[i], jitterDraws[i])
  {
    r := demos;
    var i := 0;
    while i < |r|
      invariant 0 <= i <= |r| == |demos|
      invariant forall j :: 0 <= j < i ==> r[j] == StepDemo(demos[j], width, baseY, wrapDraws[j], jitterDraws[j])
      invariant forall j :: i <= j < |r| ==> r[j] == demos[j]
    {
      r := r[i := StepDemo(r[i], width, baseY, wrapDraws[i], jitterDraws[i])];
      i := i + 1;
    }
  }

  /** Demo `i` back at its evenly spaced starting column, with a fresh height. */
  function ResetDemo(d: Demo, i: nat, width: real, baseY: real, yDraw: real): Demo
  {
    d.(x := i as real / NumDemos as real * width, y := baseY + (yDraw - 0.5) * NoiseAmount)
  }

  /** The `for` loop of `reset` over `expertDemos`. */
  method ResetDemos(demos: seq<Demo>, width: real, baseY: real, yDraws: seq<real>) returns (r: seq<Demo>)
    requires |yDraws| == |demos|
    ensures |r| == |demos|
    ensures forall i :: 0 <= i < |r| ==> r[i] == ResetDemo(demos[i], i, width, baseY, yDraws[i])
  {
    r := demos;
    var i := 0;
    while i < |r|
      invariant 0 <= i <= |r| == |demos|
      invariant forall j :: 0 <= j < i ==> r[j] == ResetDemo(demos[j], j, width, baseY, yDraws[j])
      invariant forall j :: i <= j < |r| ==> r[j] == demos[j]
    {
      r := r[i := ResetDemo(r[i], i, width, baseY, yDraws[i])];
      i := i + 1;
    }
  }

  /** Every demonstration moves at `Speed` and rests within 20 pixels of the manifold. */
  ghost predicate DemosInBand(demos: seq<Demo>, baseY: real)
  {
    forall i :: 0 <= i < |demos| ==> demos[i].vx == Speed && baseY - 20.0 <= demos[i].baseY < baseY + 20.0
  }

  /** `NeighborCount` entries, each naming one of `n` demonstrations. */
  ghost predicate NeighborsOf(ns: seq<DemoMatch>, n: nat)
  {
    |ns| == NeighborCount && forall i :: 0 <= i < |ns| ==> ns[i].idx < n
  }

  lemma NeighborsFound(demos: seq<Demo>, x: real, y: real)
    requires |demos| == NumDemos
    ensures NeighborsOf(FindNearestNeighbors(demos, x, y, NeighborCount), NumDemos)
  {
  }

  /** The stream's step keeps every demonstration's speed and rest band. */
  lemma StepKeepsBand(demos: seq<Demo>, r: seq<Demo>, width: real, baseY: real, wrapDraws: seq<real>, jitterDraws: seq<real>)
    requires DemosInBand(demos, baseY) && AllDraws(wrapDraws)
    requires |wrapDraws| == |demos| && |jitterDraws| == |demos| && |r| == |demos|
    requires forall i :: 0 <= i < |r| ==> r[i] == StepDemo(demos[i], width, baseY, wrapDraws[i], jitterDraws[i])
    ensures DemosInBand(r, baseY)
  {
    forall i | 0 <= i < |r| ensures r[i].vx == Speed && baseY - 20.0 <= r[i].baseY < baseY + 20.0 {
      assert IsDraw(wrapDraws[i]);
    }
  }

  /** Reset keeps every demonstration's speed and rest height. */
  lemma ResetKeepsBand(demos: seq<Demo>, r: seq<Demo>, width: real, baseY: real, yDraws: seq<real>)
    requires DemosInBand(demos, baseY)
    requires |yDraws| == |demos| && |r| == |demos|
    requires forall i :: 0 <= i < |r| ==> r[i] == ResetDemo(demos[i], i, width, baseY, yDraws[i])
    ensures DemosInBand(r, baseY)
  {
  }

  /** `bcAgent`: the behaviour-cloning agent. */
  datatype ClonedAgent = ClonedAgent(x: real, y: real, trail: seq<Vec>, drift: real, likelihood: real)

  /** `darpAgent`. */
  datatype DarpAgent = DarpAgent(x: real, y: real, trail: seq<Vec>, stateLikelihood: real,
                                 deltaLikelihood: real, nearestNeighbors: seq<DemoMatch>)

  /**
   * The cloned agent's frame: one step right, a drift that grows by
   * `DriftStep` every frame and pushes it ever further down, and the
   * likelihood of where it ends up.
   */
  function StepCloned(a: ClonedAgent, baseY: real, t: nat, sin: real -> real, decay: real -> real): (r: ClonedAgent)
    ensures r.x == a.x + Speed && r.drift == a.drift + DriftStep
    ensures r.trail == PushTrail(a.trail, Vec(r.x, r.y))
    ensures r.likelihood == Likelihood(r.y, baseY, decay)
    // nothing pulls it back: once 40 % of the drift outweighs the half-pixel wobble it only moves away
    ensures Bounded(sin) && r.drift * 0.4 > 0.5 ==> r.y > a.y
    ensures Bounded(sin) ==> a.y - 0.5 + r.drift * 0.4 <= r.y <= a.y + 0.5 + r.drift * 0.4
  {
    var x := a.x + Speed;
    var drift := a.drift + DriftStep;
    var y := a.y + sin(Seconds(t) * 2.0) * 0.5 + drift * 0.4;
    assert Bounded(sin) ==> -1.0 <= sin(Seconds(t) * 2.0) <= 1.0;
    ClonedAgent(x, y, PushTrail(a.trail, Vec(x, y)), drift, Likelihood(y, baseY, decay))
  }

  /** The vertical step of the DARP agent: wobble, the fading drift, and the pull toward its neighbours. */
  function DarpRise(y: real, ns: seq<DemoMatch>, t: nat, sin: real -> real): (r: real)
    // once the drift has faded, all that is left is the wobble and the clamped pull
    ensures Bounded(sin) && t >= 569 ==> -0.5 <= r - CorrectionY(ns, y, t) <= 0.5
  {
    var time := Seconds(t);
    assert Bounded(sin) ==> -1.0 <= sin(time * 2.0) <= 1.0;
    sin(time * 2.0) * 0.5 + DriftAmount(t) * time * 0.15 + CorrectionY(ns, y, t)
  }

  /**
   * The DARP agent's frame: one step right, its neighbours found from
   * there (at its old height), the vertical step, and both likelihoods at
   * its new position.
   */
  method StepDarp(a: DarpAgent, demos: seq<Demo>, baseY: real, t: nat,
                  sin: real -> real, sqrt: real -> real, decay: real -> real) returns (r: DarpAgent)
    ensures r.x == a.x + Speed
    ensures r.nearestNeighbors == FindNearestNeighbors(demos, r.x, a.y, NeighborCount)
    ensures r.y == a.y + DarpRise(a.y, r.nearestNeighbors, t, sin)
    ensures r.trail == PushTrail(a.trail, Vec(r.x, r.y))
    ensures r.stateLikelihood == Likelihood(r.y, baseY, decay)
    ensures r.deltaLikelihood == DeltaLikelihood(r.nearestNeighbors, r.x, r.y, sqrt, decay)
  {
    var x := a.x + Speed;
    var ns := FindNearestNeighbors(demos, x, a.y, NeighborCount);
    var y := a.y + DarpRise(a.y, ns, t, sin);
    var delta := CalculateDeltaLikelihood(ns, x, y, sqrt, decay);
    r := DarpAgent(x, y, PushTrail(a.trail, Vec(x, y)), Likelihood(y, baseY, decay), delta, ns);
  }

  /** Both agents at the start with empty trails and full state likelihood; the DARP agent's neighbours recomputed. */
  method ResetAgents(demos: seq<Demo>, baseY: real, sqrt: real -> real, decay: real -> real)
    returns (bc: ClonedAgent, darp: DarpAgent)
    ensures bc == ClonedAgent(StartX, baseY, [], 0.0, 1.0)
    ensures darp.x == StartX && darp.y == baseY && darp.trail == [] && darp.stateLikelihood == 1.0
    ensures darp.nearestNeighbors == FindNearestNeighbors(demos, StartX, baseY, NeighborCount)
    ensures darp.deltaLikelihood == DeltaLikelihood(darp.nearestNeighbors, StartX, baseY, sqrt, decay)
  {
    bc := ClonedAgent(StartX, baseY, [], 0.0, 1.0);
    var ns := FindNearestNeighbors(demos, StartX, baseY, NeighborCount);
    var delta := CalculateDeltaLikelihood(ns, StartX, baseY, sqrt, decay);
    darp := DarpAgent(StartX, baseY, [], 1.0, delta, ns);
  }

  /** The demo's state: the demonstration stream and the two agents. */
  class DivergenceSection {
    /** The manifold's height, fixed when the page loads. */
    const baseY: real
    var ticks: nat
    var expertDemos: seq<Demo>
    var bcAgent: ClonedAgent
    var darpAgent: DarpAgent

    ghost predicate Valid()
      reads this
    {
      && |expertDemos| == NumDemos
      && DemosInBand(expertDemos, baseY)
      && AgentsValid(bcAgent, darpAgent, ticks)
    }

    /**
     * Page load: `numDemos` demonstrations at evenly spaced columns with
     * random heights and rest heights, then `reset()`.
     */
    constructor (width: real, centreY: real, yDraws: seq<real>, baseDraws: seq<real>, resetDraws: seq<real>,
                 sqrt: real -> real, decay: real -> real)
      requires |yDraws| == NumDemos && |baseDraws| == NumDemos && |resetDraws| == NumDemos
      requires AllDraws(baseDraws)
      ensures Valid()
      ensures baseY == centreY && ticks == 0
      ensures forall i :: 0 <= i < NumDemos ==>
                expertDemos[i] == Demo(i as real / NumDemos as real * width, centreY + (resetDraws[i] - 0.5) * NoiseAmount,
                                       Speed, centreY + (baseDraws[i] - 0.5) * NoiseAmount)
      ensures bcAgent == ClonedAgent(StartX, centreY, [], 0.0, 1.0)
      ensures darpAgent.x == StartX && darpAgent.y == centreY && darpAgent.trail == [] && darpAgent.stateLikelihood == 1.0
      ensures darpAgent.nearestNeighbors == FindNearestNeighbors(expertDemos, StartX, centreY, NeighborCount)
      ensures darpAgent.deltaLikelihood == DeltaLikelihood(darpAgent.nearestNeighbors, StartX, centreY, sqrt, decay)
    {
      baseY := centreY;
      var demos := seq(NumDemos, i requires 0 <= i < NumDemos =>
        Demo(i as real / NumDemos as real * width, centreY + (yDraws[i] - 0.5) * NoiseAmount,
             Speed, centreY + (baseDraws[i] - 0.5) * NoiseAmount));
      assert DemosInBand(demos, centreY) by {
        forall i | 0 <= i < NumDemos ensures centreY - 20.0 <= demos[i].baseY < centreY + 20.0 {
          assert IsDraw(baseDraws[i]);
        }
      }
      expertDemos := demos;
      ticks := 0;
      bcAgent := ClonedAgent(StartX, centreY, [], 0.0, 1.0);
      darpAgent := DarpAgent(StartX, centreY, [], 1.0, 0.9, []);
      new;
      Reset(width, resetDraws, sqrt, decay);
    }

    /**
     * `reset()`: time back to zero, both agents back at the start with
     * empty trails, every demonstration back at its starting column with a
     * fresh height, and the DARP agent's neighbours and delta likelihood
     * recomputed.  The demonstrations' rest heights are not reset.
     */
    method Reset(width: real, yDraws: seq<real>, sqrt: real -> real, decay: real -> real)
      requires |expertDemos| == NumDemos && DemosInBand(expertDemos, baseY)
      requires |yDraws| == NumDemos
      modifies this
      ensures Valid()
      ensures ticks == 0
      ensures forall i :: 0 <= i < NumDemos ==> expertDemos[i] == ResetDemo(old(expertDemos)[i], i, width, baseY, yDraws[i])
      ensures bcAgent == ClonedAgent(StartX, baseY, [], 0.0, 1.0)
      ensures darpAgent.x == StartX && darpAgent.y == baseY && darpAgent.trail == [] && darpAgent.stateLikelihood == 1.0
      ensures darpAgent.nearestNeighbors == FindNearestNeighbors(expertDemos, StartX, baseY, NeighborCount)
      ensures darpAgent.deltaLikelihood == DeltaLikelihood(darpAgent.nearestNeighbors, StartX, baseY, sqrt, decay)
    {
      var demos := ResetDemos(expertDemos, width, baseY, yDraws);
      ResetKeepsBand(expertDemos, demos, width, baseY, yDraws);
      var bc, darp := ResetAgents(demos, baseY, sqrt, decay);
      NeighborsFound(demos, StartX, baseY);
      ticks := 0;
      expertDemos := demos;
      bcAgent, darpAgent := bc, darp;
    }

    /** One animation frame, `update()`: time, then the stream, then the cloned agent, then the DARP agent. */
    method Update(width: real, wrapDraws: seq<real>, jitterDraws: seq<real>,
                  sin: real -> real, sqrt: real -> real, decay: real -> real)
      requires Valid()
      requires |wrapDraws| == NumDemos && |jitterDraws| == NumDemos && AllDraws(wrapDraws)
      requires IsDecay(decay)
      modifies this
      ensures Valid()
      ensures ticks == old(ticks) + 1
      ensures forall i :: 0 <= i < NumDemos ==>
                expertDemos[i] == StepDemo(old(expertDemos)[i], width, baseY, wrapDraws[i], jitterDraws[i])
      ensures bcAgent == StepCloned(old(bcAgent), baseY, ticks, sin, decay)
      ensures darpAgent.x == old(darpAgent).x + Speed
      ensures darpAgent.nearestNeighbors == FindNearestNeighbors(expertDemos, darpAgent.x, old(darpAgent).y, NeighborCount)
      ensures darpAgent.y == old(darpAgent).y + DarpRise(old(darpAgent).y, darpAgent.nearestNeighbors, ticks, sin)
      ensures darpAgent.trail == PushTrail(old(darpAgent).trail, Vec(darpAgent.x, darpAgent.y))
      ensures darpAgent.stateLikelihood == Likelihood(darpAgent.y, baseY, decay)
      ensures darpAgent.deltaLikelihood == DeltaLikelihood(darpAgent.nearestNeighbors, darpAgent.x, darpAgent.y, sqrt, decay)
    {
      var t := ticks + 1;
      var demos := StepDemos(expertDemos, width, baseY, wrapDraws, jitterDraws);
      StepKeepsBand(expertDemos, demos, width, baseY, wrapDraws, jitterDraws);
      var bc := StepCloned(bcAgent, baseY, t, sin, decay);
      var darp := StepDarp(darpAgent, demos, baseY, t, sin, sqrt, decay);
      NeighborsFound(demos, darp.x, darpAgent.y);
      AgentsStepValid(bcAgent, darpAgent, bc, darp, ticks, baseY, sqrt, decay);
      ticks := t;
      expertDemos := demos;
      bcAgent, darpAgent := bc, darp;
    }
  }

  /**
   * What stays true of the agents at frame `t`: both have moved `t` steps
   * right, the cloned agent's drift has grown `t` times, the trails are
   * capped, the likelihoods are clamped, and the DARP agent holds its ten
   * neighbours.
   */
  ghost predicate AgentsValid(bc: ClonedAgent, darp: DarpAgent, t: nat)
  {
    && bc.x == StartX + t as real * Speed && darp.x == bc.x
    && bc.drift == t as real * DriftStep
    && |bc.trail| <= TrailCap && |darp.trail| <= TrailCap
    && 0.0 <= bc.likelihood <= 1.0 && 0.0 <= darp.stateLikelihood <= 1.0
    && 0.85 <= darp.deltaLikelihood <= 0.95
    && NeighborsOf(darp.nearestNeighbors, NumDemos)
  }

  /** One frame keeps AgentsValid, moving it from frame `t` to frame `t + 1`. */
  lemma AgentsStepValid(bc: ClonedAgent, darp: DarpAgent, bc': ClonedAgent, darp': DarpAgent, t: nat, baseY: real,
                        sqrt: real -> real, decay: real -> real)
    requires AgentsValid(bc, darp, t) && IsDecay(decay)
    requires bc'.x == bc.x + Speed && bc'.drift == bc.drift + DriftStep
    requires bc'.trail == PushTrail(bc.trail, Vec(bc'.x, bc'.y)) && bc'.likelihood == Likelihood(bc'.y, baseY, decay)
    requires darp'.x == darp.x + Speed && darp'.trail == PushTrail(darp.trail, Vec(darp'.x, darp'.y))
    requires darp'.stateLikelihood == Likelihood(darp'.y, baseY, decay)
    requires darp'.deltaLikelihood == DeltaLikelihood(darp'.nearestNeighbors, darp'.x, darp'.y, sqrt, decay)
    requires NeighborsOf(darp'.nearestNeighbors, NumDemos)
    ensures AgentsValid(bc', darp', t + 1)
  {
  }
}
