# DARP project page: a verified model of its interactive demos

This project models the JavaScript behind the DARP project page. DARP is a
behaviour-cloning policy that predicts actions from the difference vectors
to a state's nearest expert demonstrations. The page has three canvas demos
and a navigation script:

- **architecture** (`architecture.dfy`, module `Architecture`): a field of
  expert demonstrations (state, action). Hovering or clicking a point finds
  its five nearest demonstrations. Each neighbour predicts its action
  corrected by 1.5 % of its offset from the query, and the aggregation panel
  shows the mean of those predictions. A click locks the query and a second
  click unlocks it.
- **multimodal** (`multimodal.dfy`, module `Multimodal`): two clusters of 30
  demonstrations and a fixed query between them. An 8-second cycle selects
  the 12 nearest points, shows their plain average (which falls between the
  clusters), then shows one mode per cluster, then holds.
- **divergence** (`divergence.dfy`, module `Divergence`): a stream of 80
  demonstrations flows around a horizontal manifold. A cloned agent drifts
  away and never recovers. The DARP agent drifts at first and is then
  pulled back toward the mean height of its ten nearest demonstrations.
  Both agents carry a state likelihood that decays with distance from the
  manifold. DARP also carries a "delta likelihood" that is kept between
  0.85 and 0.95.
- **navigation** (`navigation.dfy`, module `Navigation`): the progress
  sidebar (active section, fill height, dot states), the result-domain tabs
  and the results carousel.

Shared pieces:

- `vectors.dfy` holds 2-D vectors, sums and means.
- `knn.dfy` holds the nearest-first ranking that all three demos use: a
  stable sort by distance, then the first `k`.
- `wrappers.dfy` holds `Option`.

Modelling conventions:

- **Arithmetic is exact.** Every number is a mathematical real; there is
  no IEEE-754 rounding anywhere in the model.
- **Distances are squared.** In exact arithmetic the square root is
  monotone, so ranking by squared distance gives the same order and the
  same ties.
- **The sort is stable.** `Array.prototype.sort` is stable, so equal
  distances keep the demonstrations' order. The model sorts by distance and
  then by index (`Knn.Precedes`).
- **Time is counted in animation frames** (`ticks`). The demo's `time` is
  `ticks * 0.02` s in the multimodal demo and `ticks * 0.016` s in the
  divergence demo.
- **Maths functions are parameters.** `Math.exp(-x)`, `Math.sqrt`,
  `Math.sin` and `Math.cos` are passed in as functions. Where a bound
  depends on them, the contract assumes only these properties of the
  mathematical functions they stand for:
  - `IsDecay`: value 1 at 0, within (0, 1], non-increasing;
  - `Bounded`: the result stays within [-1, 1].
- **Random draws are inputs.** Every `Math.random()` call is an input
  value; `IsDraw` says it lies in [0, 1).
- **State the source mutates is a class.** Each demo's `let` and `const`
  state that it changes becomes a class whose fields the methods reassign:
  - `ArchitectureSection`, `MultimodalSection`, `DivergenceSection`;
  - `ProgressSidebar`, `Carousel`, `DomainTabs`.
- **Rendering becomes data.** Canvas drawing and HTML rendering are out of
  scope. What the panels and dots display becomes data: `Panel`, `Dot`,
  and the alpha values.

Behaviour of the code worth noting:

- **Empty aggregation.** With no neighbours the aggregation panel shows the
  empty state (`PanelFor`). No zero vector is involved.
- **Unlocking leaves the panels alone.** The unlocking click redraws only
  the canvas, so the panels keep the locked query's contents
  (`HandleClick`).
- **Divergence reset keeps rest heights.** The reset puts every
  demonstration back at its column with a fresh height, but it does not
  touch the rest heights (`baseY`).
- **Multimodal reset keeps the average.** The reset clears the selection,
  the modes and both alphas, but not the average's coordinates.
- **Initial delta likelihood.** The initial `deltaLikelihood: 0.9` is
  overwritten by the `reset()` at page load, so the constructor ends in the
  reset state.

## Model

| member | source | states |
|---|---|---|
| Vectors.SqDist | architecture-section.js:70-72 | a squared distance is never negative and is zero between equal points |
| Vectors.Mean | multimodal-section.js:208-211 | the mean times the number of points is their sum, coordinate by coordinate; the mean of one point is that point |
| Vectors.MeanInBox | multimodal-section.js:208-211 | the mean of points that all lie in a box lies in the same box |
| Knn.SortByDist | architecture-section.js:80 | sorting is a permutation of the ranked demonstrations |
| Knn.SortSorted | architecture-section.js:80 | the sorted list is strictly increasing by distance, ties in original order |
| Knn.NearestK | architecture-section.js:75-81 | the first min(k, n) demonstrations closest first, each with its own index and distance; every demonstration left out comes after every one kept; with k ≥ n all are kept |
| Architecture.FindNearestNeighbors | architecture-section.js:74-82 | min(k, n) matches, each naming its own demonstration and distance, nearest first and stable on ties, none left out nearer than one kept, all kept when k ≥ n |
| Architecture.TieBreakScenario | architecture-section.js:80-81 | of two demonstrations equally far from the query, the earlier one is returned when only one fits |
| Architecture.AttachPredictions | architecture-section.js:424-436 | every neighbour gets the prediction action + 0.015 × (state − query), and nothing else about it changes |
| Architecture.MeanPrediction | architecture-section.js:341-345 | no aggregate exactly when there are no neighbours; otherwise the aggregate times the neighbour count is the sum of the predictions; one neighbour's aggregate is its own prediction |
| Architecture.AveragePrediction | architecture-section.js:192-199 | the canvas's accumulate-then-divide loop computes the same aggregate as the panel |
| Architecture.SumOfPredictions | architecture-section.js:431-434 | the summed predictions are the summed actions plus 0.015 × (summed states − n × query) |
| Architecture.MeanPredictionIsCorrectedMeanAction | architecture-section.js:341-345 | the aggregate is the mean action of the neighbours corrected by 0.015 × (their mean state − query) |
| Architecture.PanelFor | architecture-section.js:328-345 | the panel is empty exactly when there is no state or no neighbour; otherwise it shows that state, those neighbours and their mean prediction |
| Architecture.ArchitectureSection.constructor | architecture-section.js:62-68 | page load: the generated demonstrations, no query, no hover, no neighbours; the panel is whatever the page's markup shows, since the script does not write it at load |
| Architecture.ArchitectureSection.Resize | architecture-section.js:24-28 | a resize replaces the demonstrations and leaves query, hover, neighbours and panel as they were |
| Architecture.ArchitectureSection.HandleMouseMove | architecture-section.js:415-444 | the hover point and its five neighbours with predictions are stored; the panel follows the hover only while no query is locked |
| Architecture.ArchitectureSection.HandleMouseLeave | architecture-section.js:446-456 | hover and hover neighbours are cleared; the panel empties only while no query is locked |
| Architecture.ArchitectureSection.HandleClick | architecture-section.js:458-493 | a click toggles the lock: unlocking clears query and neighbours and keeps the panel; locking stores the query, its five neighbours with predictions and the panel for them; hover state is untouched |
| Architecture.ClickTwice | architecture-section.js:458-465 | two clicks from the unlocked state end unlocked with no neighbours and the hover untouched |
| Multimodal.FindKNearest | multimodal-section.js:71-80 | min(k, 60) points of both clusters, nearest first and stable on ties, labelled A exactly for indices below 30, none left out nearer than one kept |
| Multimodal.PhaseSeconds | multimodal-section.js:195 | the phase lies in [0, 8) seconds |
| Multimodal.StageOf | multimodal-section.js:197-240 | frame t is in the select stage iff t mod 400 < 50, average iff 50 ≤ t mod 400 < 125, modes iff 125 ≤ t mod 400 < 250, hold otherwise |
| Multimodal.AverageAlpha | multimodal-section.js:197-239 | the average's opacity lies in [0, 1], is 0 while selecting and holding, 1 from 1.75 s on in the average stage and at the start of the modes stage |
| Multimodal.SetAlpha | multimodal-section.js:197-239 | the modes' opacity lies in [0, 1], is 0 while selecting and averaging, 1 while holding |
| Multimodal.InCluster | multimodal-section.js:218-219 | the filter keeps only selected points of the given cluster, and keeps every one of them |
| Multimodal.InClusterCounts | multimodal-section.js:218-219 | every entry of the cluster is kept as many times as it occurs in the selection, every other entry never |
| Multimodal.InClusterAppend | multimodal-section.js:218-219 | the filter keeps input order: filtering a concatenation concatenates the filtered parts |
| Multimodal.InClusterPush | multimodal-section.js:218-219 | filtering one more entry appends it exactly when it carries the label |
| Multimodal.InClusterNonEmpty | multimodal-section.js:221 | a cluster is present exactly when some selected point belongs to it |
| Multimodal.InClusterAll | multimodal-section.js:218-219 | filtering points that are all of one cluster keeps all of them, in order |
| Multimodal.InClusterPartition | multimodal-section.js:218-219 | the two filters together account for every selected point |
| Multimodal.Modes | multimodal-section.js:220-233 | one mode per present cluster, at most two, A's first and B's last, each the mean of that cluster's selected points |
| Multimodal.SingleModeIsAverage | multimodal-section.js:208-233 | when all selected points come from one cluster, the set prediction is exactly the plain average |
| Multimodal.SumSplitsByCluster | multimodal-section.js:208-233 | the sum of the selected positions is the sum over cluster A plus the sum over cluster B |
| Multimodal.AverageIsWeightedModes | multimodal-section.js:208-233 | with both clusters present, the plain average is the count-weighted combination of the two modes |
| Multimodal.Floated | multimodal-section.js:189-192 | floating keeps the rest position and stays within 3 pixels of it |
| Multimodal.FloatPoints | multimodal-section.js:189-192 | every point of a cluster is floated for the current frame |
| Multimodal.MultimodalSection.constructor | multimodal-section.js:59-68 | page load: query at (410, 150), given clusters, nothing selected, both predictions at zero |
| Multimodal.MultimodalSection.Reset | multimodal-section.js:249-257 | time back to zero, fresh clusters, selection, modes and alphas cleared, average coordinates kept |
| Multimodal.MultimodalSection.Update | multimodal-section.js:185-247 | one frame: time advances, points float, alphas follow the stage, and only the selecting, averaging and modes stages change the selection, the average and the modes, respectively |
| Multimodal.MultimodalSection.ApplyStage | multimodal-section.js:195-240 | the stage of the frame decides: selecting stores the 12 nearest points, averaging stores their mean position, the modes stage stores one mode per present cluster, holding changes nothing but the alphas |
| Multimodal.MultimodalSection.SelectStage | multimodal-section.js:197-201 | in the selecting stage the selection becomes the 12 nearest points of both clusters and both alphas are those of the stage (0) |
| Multimodal.MultimodalSection.AverageStage | multimodal-section.js:202-213 | in the averaging stage the averaged prediction is the mean position of the selected points, its alpha ramps up as `AverageAlpha` says and the set alpha is 0 |
| Multimodal.MultimodalSection.ModesStage | multimodal-section.js:214-235 | in the modes stage the modes are one mean per cluster present among the selected points, and the two alphas are those of `AverageAlpha` and `SetAlpha` |
| Multimodal.MultimodalSection.HoldStage | multimodal-section.js:236-240 | in the holding stage only the alphas change: the average hidden, the set prediction fully shown |
| Divergence.FindNearestNeighbors | divergence-section.js:62-70 | min(k, n) demonstrations nearest first and stable on ties, each with its own index and distance, none left out nearer than one kept |
| Divergence.Likelihood | divergence-section.js:72-76 | the state likelihood is never negative, at most 1, and exactly 1 on the manifold |
| Divergence.LikelihoodMonotone | divergence-section.js:72-76 | further from the manifold never means a higher likelihood |
| Divergence.DeltaScore | divergence-section.js:93-99 | the delta likelihood of an average magnitude lies in [0.85, 0.95], and strictly above 0.85 when `decay` behaves like `Math.exp(-x)` |
| Divergence.DeltaScorePeak | divergence-section.js:93-99 | the typical neighbour distance (30) scores the top, 0.95 |
| Divergence.DeltaScoreMonotone | divergence-section.js:93-99 | an average further from 30 never scores higher |
| Divergence.DeltaLikelihood | divergence-section.js:78-100 | 0.9 with no neighbours, otherwise within [0.85, 0.95] |
| Divergence.CalculateDeltaLikelihood | divergence-section.js:78-100 | the accumulating loop computes the delta likelihood of the neighbours' mean distance |
| Divergence.CorrectionStrength | divergence-section.js:249 | the correction strength lies in [0, 0.08] and reaches the cap exactly from frame 25 on |
| Divergence.CorrectionY | divergence-section.js:244-251 | no correction without neighbours; otherwise a pull toward the neighbours' mean height, of the same sign as the gap and at most 8 % of it |
| Divergence.DriftAmount | divergence-section.js:254 | the drift lies in [0, 10] and is zero exactly from frame 569 on |
| Divergence.DarpRise | divergence-section.js:253-256 | once the drift has faded, the DARP agent's step is the correction plus a wobble of at most half a pixel |
| Divergence.PushTrail | divergence-section.js:258-259 | pushing grows a trail until 150 points, then keeps it at 150 by dropping the oldest; the new point is last |
| Divergence.TrailKeepsLatest | divergence-section.js:258-259 | after any number of pushes the trail is the latest 150 positions, oldest first |
| Divergence.StepDemo | divergence-section.js:219-227 | a demonstration advances by its speed, wraps to −20 past the right edge with a fresh rest height in the band, and moves 5 % toward its rest height with a jitter below a quarter pixel |
| Divergence.StepDemos | divergence-section.js:219-227 | every demonstration of the stream takes its step |
| Divergence.StepKeepsBand | divergence-section.js:221-224 | the stream's step keeps every speed at 1.5 and every rest height within 20 pixels of the manifold |
| Divergence.ResetDemos | divergence-section.js:289-292 | reset puts demonstration i back at column i/80 of the width with a fresh height, other fields kept |
| Divergence.StepCloned | divergence-section.js:229-235 | the cloned agent moves right by 1.5 with its drift grown by 0.012, stays within half a pixel of its drift rise, and rises once drift × 0.4 exceeds 0.5 |
| Divergence.StepDarp | divergence-section.js:237-263 | the DARP agent moves right, finds its ten neighbours from there, rises by its step, extends its trail and recomputes both likelihoods |
| Divergence.ResetAgents | divergence-section.js:276-296 | both agents back at (100, manifold) with empty trails and likelihood 1, the DARP agent's neighbours and delta likelihood recomputed |
| Divergence.AgentsStepValid | divergence-section.js:229-263 | one frame keeps the agents aligned in x, the drift proportional to time, the trails capped and the likelihoods in range |
| Divergence.DivergenceSection.constructor | divergence-section.js:31-57 | page load: 80 evenly spaced demonstrations with rest heights in the band and the agents' literals, then `reset()`, so it ends in the reset state |
| Divergence.DivergenceSection.Reset | divergence-section.js:275-300 | time back to zero, demonstrations back at their columns, agents back at the start |
| Divergence.DivergenceSection.Update | divergence-section.js:215-273 | one frame: the stream steps, then the cloned agent, then the DARP agent from its neighbours in the stepped stream |
| Navigation.SectionsFrom | index.js:7-20 | a section is kept exactly when its item's element exists (the hero flow for the hero item) |
| Navigation.SectionsFromDistinct | index.js:7-20 | distinct progress items give distinct sections |
| Navigation.BuildSections | index.js:8-20 | the page-load loop builds exactly the sections whose elements exist, in item order |
| Navigation.LeadingRun | index.js:28-37 | the leading run counts the sections from the top that have scrolled past the threshold, up to the first that has not |
| Navigation.ActiveIndex | index.js:28-37 | the active section is the last of the leading run, or the first section when none has passed |
| Navigation.FillHeight | index.js:41-44 | the fill never exceeds the track less padding, and is not negative when the track is tall enough |
| Navigation.FillProportional | index.js:43 | the fill is the active fraction of the track: 0 with one section, the whole track on the last section |
| Navigation.FindIndex | index.js:50 | −1 exactly when the id is not a section, otherwise its first position |
| Navigation.DotFor | index.js:52-57 | a dot is active exactly when its section is the active one, and passed exactly when its section comes before it |
| Navigation.SectionDot | index.js:47-58 | with distinct sections, section p's dot is active iff p is active and passed iff p comes before it |
| Navigation.MissingSectionDot | index.js:50-57 | an item without a section is neither active nor passed |
| Navigation.ProgressSidebar.constructor | index.js:7-62 | page load: the sections built from the items, then the first progress update, so the fill and every dot already follow the active section (and nothing changes without sections) |
| Navigation.ProgressSidebar.UpdateProgress | index.js:22-59 | nothing changes without sections; otherwise the fill follows the active section when the fill exists, and every dot is recomputed |
| Navigation.Next | index.js:102 | the next item wraps from the last to the first |
| Navigation.Prev | index.js:100 | the previous item wraps from the first to the last |
| Navigation.PrevUndoesNext | index.js:99-103 | going back after going forward returns to the same item |
| Navigation.NextUndoesPrev | index.js:99-103 | going forward after going back returns to the same item |
| Navigation.FirstActive | index.js:93 | −1 exactly when no item is active, otherwise the first active item |
| Navigation.Carousel.constructor | index.js:88-92 | a carousel with the given active and playing flags |
| Navigation.Carousel.Navigate | index.js:89-119 | without an active item nothing changes; otherwise the first active item is deactivated, its neighbour in the chosen direction activated, and only that item's videos play |
| Navigation.OneActiveStaysOne | index.js:95-106 | a carousel with exactly one active item still has exactly one after a move |
| Navigation.DomainTabs.constructor | index.js:68-69 | tabs with the given buttons and panels |
| Navigation.DomainTabs.Click | index.js:72-82 | only the clicked button is active, every panel is cleared, and the clicked tab's panel is shown exactly when it exists |
| Navigation.ClickShowsOnePanel | index.js:80-81 | after a successful click exactly one panel is active, the clicked tab's |

## Left out

- All arithmetic is exact real arithmetic, with no IEEE-754 rounding. Under doubles, `Math.sqrt` can round two different squared distances to the same value and create a tie the model does not have, and `Math.exp(-x)` returns 0 for very large `x` (about 745 and above), where `IsDecay`'s lower bound, and with it the strict bound 0.85 < r of `Divergence.DeltaScore`, does not hold.
- Canvas drawing, the neighbour cards, the SVG of the aggregation panel and `formatVector`/`formatAction`: display only. The model keeps what they show (`Panel`, `Dot`, the alphas).
- `updateMetrics` in the divergence demo: it writes rounded percentages of the likelihoods into the DOM. The likelihoods themselves are modelled.
- `console.log` calls in the divergence update: they have no effect on state.
- Canvas sizing, `devicePixelRatio` and the resize listeners' layout work: the canvas width is a parameter.
- The architecture demos' generation (`initExpertDemos`) and the clusters' generation (`initializeClusters`): they draw random numbers and call `Math.atan2`, `Math.cos` and `Math.sin`. The generated demonstrations are inputs.
- `requestAnimationFrame`, the play/pause toggles, the restart buttons' scheduling and the carousel videos' `play()`/`pause()` calls: scheduling and media are outside the model. The carousel keeps one `playing` flag per item instead.
- Floating-point accumulation of `time`: time is an exact multiple of the frame step, so a stage boundary can fall one frame apart from the browser's.
- `Math.sqrt` in distances: squared distances give the same ranking.
- `Divergence.Likelihood`: the bound ≤ 1 and the value 1 on the manifold hold only when `decay` behaves like `Math.exp(-x)` (`IsDecay`).
- `Divergence.DeltaScore`: the strict lower bound above 0.85 holds only under `IsDecay`.
- `Multimodal.Floated`: the 3-pixel bound holds only when `sin` and `cos` stay in [-1, 1] (`Bounded`).
- `Divergence.StepCloned`: the drift-away facts hold only under `Bounded(sin)`.
- `Navigation.DomainTabs.Click`: `getElementById` searches the whole document; the model looks only among the content panels. A missing panel makes the source throw after the panels are cleared; the model returns `false` in that state.
- `Navigation.Carousel.Navigate`: with no active item the source throws on `items[-1]` before changing anything; the model returns `false` with nothing changed.
- `Navigation.ProgressSidebar.UpdateProgress`: the element geometry (`getBoundingClientRect`, `offsetHeight`, `innerHeight`) comes in as parameters.
- `static/js/index.js` (the Bulma/jQuery page template script) and `server.py`: not part of this model.
