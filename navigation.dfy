/**
 * The page's navigation logic: the progress sidebar that marks the section
 * being read, the results carousels stepped with prev/next buttons, and the
 * domain tabs.  Class lists are modelled as flags: an item is "active" or
 * not, a dot is plain, "active" or "passed".
 */
module Navigation {

  // ------------------------------------------------------ progress sidebar

  /** The only progress item that is found by class instead of by id. */
  const HeroId: string := "hero"
  /** The track's top and bottom padding, subtracted from its height. */
  const TrackPadding: real := 44.0
  /** A section is reached once its top is within 35 % of the viewport's height. */
  const ActivationRatio: real := 0.35

  /**
   * Whether a progress item's element exists: `.hero-flow` for the hero
   * item, the element with the item's id for the others.
   */
  predicate HasElement(id: string, heroFlow: bool, ids: set<string>)
  {
    if id == HeroId then heroFlow else id in ids
  }

  /** The ids of the progress items whose element exists, in item order. */
  function SectionsFrom(items: seq<string>, heroFlow: bool, ids: set<string>): (r: seq<string>)
    ensures |r| <= |items|
    ensures forall id :: id in r <==> id in items && HasElement(id, heroFlow, ids)
    decreases |items|
  {
    if |items| == 0 then []
    else
      var rest := SectionsFrom(items[..|items| - 1], heroFlow, ids);
      var id := items[|items| - 1];
      assert items == items[..|items| - 1] + [id];
      if HasElement(id, heroFlow, ids) then rest + [id] else rest
  }

  /** Keeping the items with an element commutes with splitting the item list. */
  lemma {:induction false} SectionsFromAppend(a: seq<string>, b: seq<string>, heroFlow: bool, ids: set<string>)
    ensures SectionsFrom(a + b, heroFlow, ids) == SectionsFrom(a, heroFlow, ids) + SectionsFrom(b, heroFlow, ids)
    decreases |b|
  {
    if |b| > 0 {
      var b', id := b[..|b| - 1], b[|b| - 1];
      assert (a + b)[..|a + b| - 1] == a + b';
      SectionsFromAppend(a, b', heroFlow, ids);
    } else {
      assert a + b == a;
    }
  }

  /** No id repeats in `s`. */
  predicate Distinct(s: seq<string>)
  {
    forall i, j :: 0 <= i < j < |s| ==> s[i] != s[j]
  }

  /** Distinct progress items give distinct sections. */
  lemma {:induction false} SectionsFromDistinct(items: seq<string>, heroFlow: bool, ids: set<string>)
    requires Distinct(items)
    ensures Distinct(SectionsFrom(items, heroFlow, ids))
    decreases |items|
  {
    if |items| > 0 {
      var items', id := items[..|items| - 1], items[|items| - 1];
      SectionsFromDistinct(items', heroFlow, ids);
      assert forall k :: 0 <= k < |items'| ==> items'[k] != id by {
        forall k | 0 <= k < |items'| ensures items'[k] != id {
          assert items'[k] == items[k];
        }
      }
    }
  }

  /** The `forEach` that builds `sections`. */
  method BuildSections(items: seq<string>, heroFlow: bool, ids: set<string>) returns (sections: seq<string>)
    ensures sections == SectionsFrom(items, heroFlow, ids)
  {
    sections := [];
    var i := 0;
    while i < |items|
      invariant 0 <= i <= |items|
      invariant sections == SectionsFrom(items[..i], heroFlow, ids)
    {
      assert items[..i + 1][..i] == items[..i];
      var id := items[i];
      if HasElement(id, heroFlow, ids) {
        sections := sections + [id];
      }
      i := i + 1;
    }
    assert items[..i] == items;
  }

  /** How many sections, from the first, have their top at or above the threshold. */
  function LeadingRun(tops: seq<real>, threshold: real): (r: nat)
    ensures r <= |tops|
    ensures forall j :: 0 <= j < r ==> tops[j] <= threshold
    ensures r < |tops| ==> tops[r] > threshold
    decreases |tops|
  {
    if |tops| == 0 || tops[0] > threshold then 0 else 1 + LeadingRun(tops[1..], threshold)
  }

  /** The `for` loop with a `break` that picks `activeIdx`. */
  method ActiveIndex(tops: seq<real>, threshold: real) returns (activeIdx: nat)
    requires |tops| > 0
    ensures activeIdx < |tops|
    // the last of the leading run of reached sections, or the first section if none is reached
    ensures activeIdx == if LeadingRun(tops, threshold) == 0 then 0 else LeadingRun(tops, threshold) - 1
  {
    activeIdx := 0;
    var idx := 0;
    while idx < |tops|
      invariant 0 <= idx <= |tops|
      invariant forall j :: 0 <= j < idx ==> tops[j] <= threshold
      invariant activeIdx == if idx == 0 then 0 else idx - 1
    {
      if tops[idx] <= threshold {
        activeIdx := idx;
      } else {
        break;
      }
      idx := idx + 1;
    }
    LeadingRunIs(tops, threshold, idx);
  }

  /** The leading run is any prefix of reached sections that ends at the end or at an unreached one. */
  lemma {:induction false} LeadingRunIs(tops: seq<real>, threshold: real, n: nat)
    requires n <= |tops|
    requires forall j :: 0 <= j < n ==> tops[j] <= threshold
    requires n < |tops| ==> tops[n] > threshold
    ensures LeadingRun(tops, threshold) == n
    decreases n
  {
    if n > 0 {
      assert tops[0] <= threshold;
      assert forall j :: 0 <= j < n - 1 ==> tops[1..][j] == tops[j + 1];
      LeadingRunIs(tops[1..], threshold, n - 1);
    }
  }

  /**
   * The height written to the progress line: the fraction of the way to the
   * last section times the track's usable height, clamped to [0, maxFill].
   */
  function FillHeight(activeIdx: nat, n: nat, maxFill: real): (r: real)
    ensures r <= maxFill
    ensures 0.0 <= maxFill ==> 0.0 <= r
  {
    var denom := if n - 1 >= 1 then n - 1 else 1;
    var fill := activeIdx as real / denom as real * maxFill;
    var atLeast := if fill >= 0.0 then fill else 0.0;
    if atLeast <= maxFill then atLeast else maxFill
  }

  /** On a track of non-negative height the clamp never bites: the fill is proportional to the index. */
  lemma FillProportional(activeIdx: nat, n: nat, maxFill: real)
    requires activeIdx < n && 0.0 <= maxFill
    ensures n == 1 ==> FillHeight(activeIdx, n, maxFill) == 0.0
    ensures n > 1 ==> FillHeight(activeIdx, n, maxFill) * (n - 1) as real == activeIdx as real * maxFill
    ensures n > 1 && activeIdx == n - 1 ==> FillHeight(activeIdx, n, maxFill) == maxFill
  {
    if n > 1 {
      var d := (n - 1) as real;
      var q := activeIdx as real / d;
      assert 0.0 <= q <= 1.0;
      FractionOfTrack(q, maxFill);
      assert q * d == activeIdx as real;
      assert (q * maxFill) * d == (q * d) * maxFill;
    }
  }

  lemma FractionOfTrack(q: real, maxFill: real)
    requires 0.0 <= q <= 1.0 && 0.0 <= maxFill
    ensures 0.0 <= q * maxFill <= maxFill
  {
    assert q * maxFill <= 1.0 * maxFill;
  }

  /** `sections.findIndex(s => s.id === id)`: the first position of `id`, or -1. */
  function FindIndex(sections: seq<string>, id: string): (r: int)
    ensures -1 <= r < |sections|
    ensures r == -1 <==> id !in sections
    ensures 0 <= r ==> sections[r] == id && forall j :: 0 <= j < r ==> sections[j] != id
    decreases |sections|
  {
    if |sections| == 0 then -1
    else if sections[0] == id then 0
    else
      var r := FindIndex(sections[1..], id);
      assert forall x :: x in sections <==> x == sections[0] || x in sections[1..];
      if r == -1 then -1 else r + 1
  }

  /** In a list without repeats, an id is found where it is. */
  lemma FindIndexDistinct(sections: seq<string>, p: nat)
    requires Distinct(sections) && p < |sections|
    ensures FindIndex(sections, sections[p]) == p
  {
    assert sections[p] in sections;
    var r := FindIndex(sections, sections[p]);
    assert 0 <= r && sections[r] == sections[p];
  }

  datatype Dot = Plain | Active | Passed

  /** The class a progress dot ends up with: none, 'active' or 'passed', never both. */
  function DotFor(sectionIdx: int, activeIdx: nat): (r: Dot)
    ensures r == Active <==> sectionIdx == activeIdx
    ensures r == Passed <==> 0 <= sectionIdx < activeIdx
  {
    if sectionIdx == activeIdx then Active
    else if sectionIdx >= 0 && sectionIdx < activeIdx then Passed
    else Plain
  }

  /** The sidebar: its progress items, the sections found for them, the fill and the dots. */
  class ProgressSidebar {
    /** Each progress item's `data-section`. */
    const items: seq<string>
    /** The ids of `sections`, built once at page load. */
    const sections: seq<string>
    /** Whether `.progress-line-fill` and `.progress-track` both exist. */
    const hasFill: bool
    var fillHeight: real
    /** One dot state per progress item. */
    var dots: seq<Dot>

    ghost predicate Valid()
      reads this
    {
      |dots| == |items|
    }

    /** Page load: build `sections`, then the first `updateProgress()`. */
    constructor (items: seq<string>, heroFlow: bool, ids: set<string>, hasFill: bool, dots: seq<Dot>, fillHeight: real,
                 viewportHeight: real, trackHeight: real, tops: seq<real>)
      requires |dots| == |items|
      requires |tops| == |SectionsFrom(items, heroFlow, ids)|
      ensures Valid()
      ensures this.items == items && sections == SectionsFrom(items, heroFlow, ids) && this.hasFill == hasFill
      ensures |sections| == 0 ==> this.fillHeight == fillHeight && this.dots == dots
      ensures |sections| > 0 ==>
                var run := LeadingRun(tops, viewportHeight * ActivationRatio);
                var activeIdx := if run == 0 then 0 else run - 1;
                && this.fillHeight == (if hasFill then FillHeight(activeIdx, |sections|, trackHeight - TrackPadding)
                                       else fillHeight)
                && forall i :: 0 <= i < |items| ==> this.dots[i] == DotFor(FindIndex(sections, items[i]), activeIdx)
    {
      var built := BuildSections(items, heroFlow, ids);
      this.items := items;
      sections := built;
      this.hasFill := hasFill;
      this.fillHeight := fillHeight;
      this.dots := dots;
      new;
      UpdateProgress(viewportHeight, trackHeight, tops);
    }

    /**
     * `updateProgress()` on a scroll: `tops` are the sections' current
     * `getBoundingClientRect().top`.  Nothing changes without sections.
     */
    method UpdateProgress(viewportHeight: real, trackHeight: real, tops: seq<real>)
      requires Valid()
      requires |tops| == |sections|
      modifies this
      ensures Valid()
      ensures |sections| == 0 ==> fillHeight == old(fillHeight) && dots == old(dots)
      ensures |sections| > 0 ==>
                var run := LeadingRun(tops, viewportHeight * ActivationRatio);
                var activeIdx := if run == 0 then 0 else run - 1;
                && fillHeight == (if hasFill then FillHeight(activeIdx, |sections|, trackHeight - TrackPadding)
                                  else old(fillHeight))
                && forall i :: 0 <= i < |items| ==> dots[i] == DotFor(FindIndex(sections, items[i]), activeIdx)
    {
      if |sections| == 0 {
        return;
      }
      var activationThreshold := viewportHeight * ActivationRatio;
      var activeIdx := ActiveIndex(tops, activationThreshold);
      if hasFill {
        var maxFillHeight := trackHeight - TrackPadding;
        fillHeight := FillHeight(activeIdx, |sections|, maxFillHeight);
      }
      dots := seq(|items|, i requires 0 <= i < |items| => DotFor(FindIndex(sections, items[i]), activeIdx));
    }
  }

  /**
   * With distinct section ids, the dot of section `p` is active exactly
   * when `p` is the active index and passed exactly when it comes before it.
   */
  lemma SectionDot(sections: seq<string>, p: nat, activeIdx: nat)
    requires Distinct(sections) && p < |sections|
    ensures DotFor(FindIndex(sections, sections[p]), activeIdx) == Active <==> p == activeIdx
    ensures DotFor(FindIndex(sections, sections[p]), activeIdx) == Passed <==> p < activeIdx
  {
    FindIndexDistinct(sections, p);
  }

  /** A progress item without a section is never marked. */
  lemma MissingSectionDot(sections: seq<string>, id: string, activeIdx: nat)
    requires id !in sections
    ensures DotFor(FindIndex(sections, id), activeIdx) == Plain
  {
  }

  // --------------------------------------------------------------- carousel

  /** `(i + 1) % n` */
  function Next(i: nat, n: nat): (r: nat)
    requires i < n
    ensures r < n
    ensures r == if i == n - 1 then 0 else i + 1
  {
    (i + 1) % n
  }

  /** `(i - 1 + n) % n` */
  function Prev(i: nat, n: nat): (r: nat)
    requires i < n
    ensures r < n
    ensures r == if i == 0 then n - 1 else i - 1
  {
    (i - 1 + n) % n
  }

  lemma PrevUndoesNext(i: nat, n: nat)
    requires i < n
    ensures Prev(Next(i, n), n) == i
  {
  }

  lemma NextUndoesPrev(i: nat, n: nat)
    requires i < n
    ensures Next(Prev(i, n), n) == i
  {
  }

  /** `Array.from(items).findIndex(item => item.classList.contains('active'))` */
  function FirstActive(active: seq<bool>): (r: int)
    ensures -1 <= r < |active|
    ensures r == -1 <==> forall j :: 0 <= j < |active| ==> !active[j]
    ensures 0 <= r ==> active[r] && forall j :: 0 <= j < r ==> !active[j]
    decreases |active|
  {
    if |active| == 0 then -1
    else if active[0] then 0
    else
      var r := FirstActive(active[1..]);
      assert forall j :: 1 <= j < |active| ==> active[j] == active[1..][j - 1];
      if r == -1 then -1 else r + 1
  }

  /** The number of active items. */
  function CountActive(active: seq<bool>): (r: nat)
    ensures r <= |active|
    decreases |active|
  {
    if |active| == 0 then 0 else (if active[0] then 1 else 0) + CountActive(active[1..])
  }

  lemma {:induction false} CountNone(active: seq<bool>)
    requires forall j :: 0 <= j < |active| ==> !active[j]
    ensures CountActive(active) == 0
    decreases |active|
  {
    if |active| > 0 {
      CountNone(active[1..]);
    }
  }

  /** Exactly the item `c` active. */
  lemma {:induction false} CountOnly(active: seq<bool>, c: nat)
    requires c < |active|
    requires forall j :: 0 <= j < |active| ==> active[j] == (j == c)
    ensures CountActive(active) == 1
    decreases |active|
  {
    if c == 0 {
      CountNone(active[1..]);
    } else {
      CountOnly(active[1..], c - 1);
    }
  }

  /** With exactly one active item, it is the only one. */
  lemma {:induction false} CountOneIsOnly(active: seq<bool>, c: nat)
    requires CountActive(active) == 1 && c < |active| && active[c]
    ensures forall j :: 0 <= j < |active| ==> active[j] == (j == c)
    decreases |active|
  {
    if c == 0 {
      assert CountActive(active[1..]) == 0;
      CountZeroIsNone(active[1..]);
      assert forall j :: 1 <= j < |active| ==> active[j] == active[1..][j - 1];
    } else {
      assert active[1..][c - 1];
      CountPositive(active[1..], c - 1);
      assert !active[0];
      CountOneIsOnly(active[1..], c - 1);
      assert forall j :: 1 <= j < |active| ==> active[j] == active[1..][j - 1];
    }
  }

  /** An active item makes the count positive. */
  lemma {:induction false} CountPositive(active: seq<bool>, c: nat)
    requires c < |active| && active[c]
    ensures CountActive(active) >= 1
    decreases |active|
  {
    if c > 0 {
      assert active[1..][c - 1] == active[c];
      CountPositive(active[1..], c - 1);
    }
  }

  lemma {:induction false} CountZeroIsNone(active: seq<bool>)
    requires CountActive(active) == 0
    ensures forall j :: 0 <= j < |active| ==> !active[j]
    decreases |active|
  {
    if |active| > 0 {
      CountZeroIsNone(active[1..]);
      assert forall j :: 1 <= j < |active| ==> active[j] == active[1..][j - 1];
    }
  }

  /** One results carousel: which items are active and whose videos play. */
  class Carousel {
    var active: seq<bool>
    var playing: seq<bool>

    ghost predicate Valid()
      reads this
    {
      |playing| == |active|
    }

    constructor (active: seq<bool>, playing: seq<bool>)
      requires |playing| == |active|
      ensures Valid() && this.active == active && this.playing == playing
    {
      this.active := active;
      this.playing := playing;
    }

    /**
     * A click on the carousel's prev or next button: the first active item
     * loses 'active', its neighbour (wrapping round) gains it, and exactly
     * that item's videos play.  With no active item the handler fails on
     * `items[-1]` before changing anything, and `ok` is false.
     */
    method Navigate(prev: bool) returns (ok: bool)
      requires Valid()
      modifies this
      ensures Valid()
      ensures ok <==> old(FirstActive(active)) >= 0
      ensures !ok ==> active == old(active) && playing == old(playing)
      ensures ok ==>
                var c := old(FirstActive(active));
                var c' := if prev then Prev(c, |old(active)|) else Next(c, |old(active)|);
                && active == old(active)[c := false][c' := true]
                && forall j :: 0 <= j < |playing| ==> playing[j] == (j == c')
    {
      var currentIndex := FirstActive(active);
      if currentIndex < 0 {
        return false;
      }
      active := active[currentIndex := false];
      if prev {
        currentIndex := Prev(currentIndex, |active|);
      } else {
        currentIndex := Next(currentIndex, |active|);
      }
      active := active[currentIndex := true];
      var n := |active|;
      playing := seq(n, j requires 0 <= j < n => j == currentIndex);
      ok := true;
    }
  }

  /** With exactly one active item before a move, exactly one is active after it. */
  lemma OneActiveStaysOne(active: seq<bool>, prev: bool)
    requires CountActive(active) == 1
    ensures 0 <= FirstActive(active)
    ensures var c := FirstActive(active);
            var c' := if prev then Prev(c, |active|) else Next(c, |active|);
            CountActive(active[c := false][c' := true]) == 1
  {
    var c := FirstActive(active);
    if c < 0 {
      CountNone(active);
    }
    var c' := if prev then Prev(c, |active|) else Next(c, |active|);
    CountOneIsOnly(active, c);
    var after := active[c := false][c' := true];
    CountOnly(after, c');
  }

  // ------------------------------------------------------------ domain tabs

  /** The domain tabs: each button's `data-tab`, each content panel's id, and their 'active' flags. */
  class DomainTabs {
    const tabs: seq<string>
    const contentIds: seq<string>
    var buttonActive: seq<bool>
    var contentActive: seq<bool>

    ghost predicate Valid()
      reads this
    {
      |buttonActive| == |tabs| && |contentActive| == |contentIds|
    }

    constructor (tabs: seq<string>, contentIds: seq<string>, buttonActive: seq<bool>, contentActive: seq<bool>)
      requires |buttonActive| == |tabs| && |contentActive| == |contentIds|
      ensures Valid()
      ensures this.tabs == tabs && this.contentIds == contentIds
      ensures this.buttonActive == buttonActive && this.contentActive == contentActive
    {
      this.tabs := tabs;
      this.contentIds := contentIds;
      this.buttonActive := buttonActive;
      this.contentActive := contentActive;
    }

    /**
     * A click on button `b`: exactly that button is active; every panel is
     * cleared and the first panel whose id is the tab's name followed by
     * "-content" is activated.  When there is no such panel the handler
     * fails after clearing them, and `ok` is false.
     */
    method Click(b: nat) returns (ok: bool)
      requires Valid() && b < |tabs|
      modifies this
      ensures Valid()
      ensures forall i :: 0 <= i < |tabs| ==> buttonActive[i] == (i == b)
      ensures ok <==> tabs[b] + "-content" in contentIds
      ensures forall j :: 0 <= j < |contentIds| ==>
                contentActive[j] == (ok && j == FindIndex(contentIds, tabs[b] + "-content"))
    {
      buttonActive := seq(|tabs|, i requires 0 <= i < |tabs| => false);
      buttonActive := buttonActive[b := true];
      contentActive := seq(|contentIds|, j requires 0 <= j < |contentIds| => false);
      var target := FindIndex(contentIds, tabs[b] + "-content");
      if target < 0 {
        return false;
      }
      contentActive := contentActive[target := true];
      ok := true;
    }
  }

  /** After a successful click exactly one panel is active, the one for the clicked tab. */
  lemma ClickShowsOnePanel(contentIds: seq<string>, contentActive: seq<bool>, id: string)
    requires |contentActive| == |contentIds| && id in contentIds
    requires forall j :: 0 <= j < |contentIds| ==> contentActive[j] == (j == FindIndex(contentIds, id))
    ensures CountActive(contentActive) == 1
    ensures forall j :: 0 <= j < |contentIds| && contentActive[j] ==> contentIds[j] == id
  {
    CountOnly(contentActive, FindIndex(contentIds, id));
  }
}
