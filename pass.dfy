/**
  One run of `layout()` (script.js:128-208) as a function of the values it
  reads and writes: the card list, the shuffled order, the states of the
  per-card generators, the position cache and the available width. The
  expanded height, read from the DOM, is the `measure` parameter (card and
  width to height).
*/
module Pass {
  import opened Wrappers
  import opened JsMath
  import opened Mulberry
  import opened Ratio
  import opened Columns
  import opened Span
  import opened Packer
  import opened Cards

  /** A `posCache` entry: the card's offset within the grid. */
  datatype Pos = Pos(x: int, y: int)

  /** What a pass changes: column heights, the cache and the generator states. */
  datatype PassState = PassState(heights: seq<int>, cache: map<nat, Pos>, seeds: seq<bv32>)

  /**
    script.js:153: an expanded card spans every column and draws nothing;
    any other card takes `decideSpan` with the generator of its position,
    capped at the column count.
  */
  function CardDecision(c: Card, cols: int, seed: bv32): (d: Decision)
    requires cols >= 1
    ensures 1 <= d.span <= cols
  {
    if c.expanded then Decision(cols, seed)
    else
      var d := Decide(c.featured, cols, seed);
      DecidedSpanBounds(c.featured, cols, seed);
      Decision(Min(d.span, cols), d.seed)
  }

  /**
    The three cases of the span: all columns for an expanded card,
    min(2, cols) for a featured one, and otherwise the rule on one fresh
    draw, which is the only case that advances the generator.
  */
  lemma CardDecisionCases(c: Card, cols: int, seed: bv32)
    requires cols >= 1
    ensures c.expanded ==> CardDecision(c, cols, seed) == Decision(cols, seed)
    ensures !c.expanded && Truthy(c.featured) ==> CardDecision(c, cols, seed) == Decision(Min(2, cols), seed)
    ensures !c.expanded && !Truthy(c.featured) ==>
      CardDecision(c, cols, seed).seed == Advance(seed)
      && CardDecision(c, cols, seed).span == SpanForDraw(cols, Mix(Advance(seed)))
  {
  }

  /** The ratio string the layout parses: `card.dataset.ratio || "1:1"`, never empty. */
  function RatioText(c: Card): (r: string)
    ensures r != "" && (c.ratio != "" ==> r == c.ratio)
    ensures c.ratio == "" ==> r == "1:1"
  {
    if c.ratio == "" then "1:1" else c.ratio
  }

  /** Where and how large one card is placed, and its generator state after. */
  datatype Placement = Placement(col: nat, y: int, width: int, height: int, span: nat, seed: bv32)

  /** The body of the `forEach` in script.js:150-196 for card c with key `key`. */
  function Place(c: Card, key: nat, heights: seq<int>, colWidth: int, seed: bv32,
                 measure: (nat, int) -> int): (p: Placement)
    requires |heights| >= 1
    ensures 1 <= p.span <= |heights| && p.col + p.span <= |heights|
    ensures p.width == SpanWidth(p.span, colWidth)
  {
    var d := CardDecision(c, |heights|, seed);
    var width := SpanWidth(d.span, colWidth);
    var height := if c.expanded then measure(key, width) else CollapsedHeight(width, ParseRatio(RatioText(c)));
    var b := BestWindow(heights, d.span);
    Placement(b.col, b.y, width, height, d.span, d.seed)
  }

  /**
    Every placed card lies inside the grid: its left edge is at least 0 and
    its right edge at most the container width; an expanded card starts at
    0 and is as wide as the grid.
  */
  lemma PlaceWithinGrid(c: Card, key: nat, heights: seq<int>, colWidth: int, seed: bv32,
                        measure: (nat, int) -> int)
    requires |heights| >= 1 && colWidth + GAP > 0
    ensures var p := Place(c, key, heights, colWidth, seed, measure);
      0 <= Offset(p.col, colWidth)
      && Offset(p.col, colWidth) + p.width <= SpanWidth(|heights|, colWidth)
      && (c.expanded ==> Offset(p.col, colWidth) == 0 && p.width == SpanWidth(|heights|, colWidth))
  {
    var p := Place(c, key, heights, colWidth, seed, measure);
    CardDecisionCases(c, |heights|, seed);
    PlacementWithinGrid(|heights|, colWidth, p.span, p.col);
  }

  /** The card goes on the leftmost lowest window of its span. */
  lemma PlaceIsLowest(c: Card, key: nat, heights: seq<int>, colWidth: int, seed: bv32,
                      measure: (nat, int) -> int)
    requires |heights| >= 1
    ensures var p := Place(c, key, heights, colWidth, seed, measure);
      p.y == WindowMax(heights, p.col, p.span)
      && (forall c :: 0 <= c <= |heights| - p.span ==> p.y <= WindowMax(heights, c, p.span))
      && (forall c :: 0 <= c < p.col ==> p.y < WindowMax(heights, c, p.span))
  {
    var p := Place(c, key, heights, colWidth, seed, measure);
    BestWindowIsLeftmostLowest(heights, p.span);
  }

  /** With a non-negative column width and measured heights, a card's height is non-negative. */
  lemma PlaceHeightNonNegative(c: Card, key: nat, heights: seq<int>, colWidth: int, seed: bv32,
                               measure: (nat, int) -> int)
    requires |heights| >= 1 && colWidth >= 0 && forall key, w :: measure(key, w) >= 0
    ensures Place(c, key, heights, colWidth, seed, measure).height >= 0
  {
    var p := Place(c, key, heights, colWidth, seed, measure);
    if !c.expanded {
      CollapsedHeightNonNegative(p.width, ParseRatio(RatioText(c)));
    }
  }

  /** Each card lands at an index below the card count. */
  predicate OrderFits(cards: seq<Card>, order: seq<nat>) {
    forall i :: 0 <= i < |order| ==> order[i] < |cards|
  }

  /** What one pass reads: the cards, the order, the column width, the measure and the starting state. */
  datatype Inputs = Inputs(cards: seq<Card>, order: seq<nat>, colWidth: int,
                           measure: (nat, int) -> int, start: PassState)

  predicate WellFormed(inp: Inputs) {
    |inp.order| == |inp.start.seeds| && OrderFits(inp.cards, inp.order) && |inp.start.heights| >= 1
  }

  /** Recording placement p of the card at position i, key `key`, and raising its window. */
  function Apply(st: PassState, key: nat, i: nat, colWidth: int, p: Placement): (r: PassState)
    requires i < |st.seeds| && p.col + p.span <= |st.heights|
    ensures |r.heights| == |st.heights| && |r.seeds| == |st.seeds|
  {
    PassState(Raised(st.heights, p.col, p.span, p.y + p.height + GAP),
              st.cache[key := Pos(Offset(p.col, colWidth), p.y)],
              st.seeds[i := p.seed])
  }

  /** The state after the first k cards of the order are placed. */
  function PassUpTo(inp: Inputs, k: nat): (r: PassState)
    requires WellFormed(inp) && k <= |inp.order|
    ensures |r.heights| == |inp.start.heights| && |r.seeds| == |inp.start.seeds|
    decreases k, 0
  {
    if k == 0 then inp.start
    else Apply(PassUpTo(inp, k - 1), inp.order[k - 1], k - 1, inp.colWidth, Placed(inp, k - 1))
  }

  /** The placement of the card at position i, on the heights the earlier cards left. */
  function Placed(inp: Inputs, i: nat): (p: Placement)
    requires WellFormed(inp) && i < |inp.order|
    ensures 1 <= p.span <= |inp.start.heights| && p.col + p.span <= |inp.start.heights|
    ensures p.width == SpanWidth(p.span, inp.colWidth)
    decreases i, 1
  {
    var st := PassUpTo(inp, i);
    Place(inp.cards[inp.order[i]], inp.order[i], st.heights, inp.colWidth, st.seeds[i], inp.measure)
  }

  /** One step of the pass: the card at position i is placed on the heights so far and recorded. */
  lemma PassStep(inp: Inputs, i: nat)
    requires WellFormed(inp) && i < |inp.order|
    ensures var st := PassUpTo(inp, i);
      PassUpTo(inp, i + 1)
      == Apply(st, inp.order[i], i, inp.colWidth,
               Place(inp.cards[inp.order[i]], inp.order[i], st.heights, inp.colWidth, st.seeds[i], inp.measure))
  {
  }

  /** The result of a whole `layout()`. */
  datatype Outcome = Outcome(containerWidth: int, totalHeight: int, state: PassState)

  /** All columns at height 0 (script.js:147). */
  function Flat(cols: nat): seq<int> {
    seq(cols, _ => 0)
  }

  /** The pass inputs for raw available width `availRaw` (script.js:137-140, 147). */
  function LayoutInputs(cards: seq<Card>, order: seq<nat>, seeds: seq<bv32>, cache: map<nat, Pos>,
                        availRaw: int, measure: (nat, int) -> int): (inp: Inputs)
    ensures |order| == |seeds| && OrderFits(cards, order) ==> WellFormed(inp)
  {
    var avail := Max(0, availRaw);
    var cols := DecideCols(avail);
    Inputs(cards, order, ColWidth(avail, cols), measure, PassState(Flat(cols), cache, seeds))
  }

  /**
    `layout()`: the grid width, the container height and the new state.
    The grid is never wider than the available width, the container is
    never of negative height, there is one height per column of
    `decideCols` and one state per generator.
  */
  function LayoutPass(cards: seq<Card>, order: seq<nat>, seeds: seq<bv32>, cache: map<nat, Pos>,
                      availRaw: int, measure: (nat, int) -> int): (out: Outcome)
    requires |order| == |seeds| && OrderFits(cards, order)
    ensures out.containerWidth <= Max(0, availRaw) && out.totalHeight >= 0
    ensures |out.state.heights| == DecideCols(Max(0, availRaw)) && |out.state.seeds| == |seeds|
  {
    var inp := LayoutInputs(cards, order, seeds, cache, availRaw, measure);
    var st := PassUpTo(inp, |order|);
    GridFits(Max(0, availRaw), |inp.start.heights|);
    Outcome(SpanWidth(|inp.start.heights|, inp.colWidth), ContainerHeight(st.heights), st)
  }

  /** Whether laying out the card draws from its position's generator. */
  predicate Draws(c: Card) {
    !c.expanded && !Truthy(c.featured)
  }

  /** Placing the card at position i advances that position's generator once if the card draws. */
  lemma StepSeeds(inp: Inputs, i: nat)
    requires WellFormed(inp) && i < |inp.order|
    ensures var st := PassUpTo(inp, i);
      PassUpTo(inp, i + 1).seeds
      == st.seeds[i := if Draws(inp.cards[inp.order[i]]) then Advance(st.seeds[i]) else st.seeds[i]]
  {
    var st := PassUpTo(inp, i);
    CardDecisionCases(inp.cards[inp.order[i]], |st.heights|, st.seeds[i]);
  }

  /** Placing the card at position i adds its key to the cache. */
  lemma StepCacheKeys(inp: Inputs, i: nat)
    requires WellFormed(inp) && i < |inp.order|
    ensures PassUpTo(inp, i + 1).cache.Keys == PassUpTo(inp, i).cache.Keys + {inp.order[i]}
  {
  }

  /** The state of position i's generator that `PassAdvancesSeeds` predicts after k cards. */
  function SeedAfter(inp: Inputs, k: nat, i: nat): bv32
    requires WellFormed(inp) && i < |inp.order|
  {
    if i < k && Draws(inp.cards[inp.order[i]]) then Advance(inp.start.seeds[i]) else inp.start.seeds[i]
  }

  /** One step of `PassAdvancesSeeds`, on the sequences alone. */
  lemma SeedsStep(inp: Inputs, k: nat, prev: seq<bv32>, cur: seq<bv32>)
    requires WellFormed(inp) && 0 < k <= |inp.order| && |prev| == |inp.order|
    requires forall i :: 0 <= i < |inp.order| ==> prev[i] == SeedAfter(inp, k - 1, i)
    requires cur == prev[k - 1 := if Draws(inp.cards[inp.order[k - 1]]) then Advance(prev[k - 1]) else prev[k - 1]]
    ensures forall i :: 0 <= i < |inp.order| ==> cur[i] == SeedAfter(inp, k, i)
  {
  }

  /**
    The generator of position i has advanced once after the first k cards
    exactly when i < k and the card at position i is neither expanded nor
    featured. The generator belongs to the position in the shuffled order,
    not to the card.
  */
  lemma {:induction false} PassAdvancesSeeds(inp: Inputs, k: nat)
    requires WellFormed(inp) && k <= |inp.order|
    ensures forall i :: 0 <= i < |inp.order| ==>
      PassUpTo(inp, k).seeds[i]
      == (if i < k && Draws(inp.cards[inp.order[i]]) then Advance(inp.start.seeds[i]) else inp.start.seeds[i])
    decreases k
  {
    if k > 0 {
      var prev := PassUpTo(inp, k - 1).seeds;
      PassAdvancesSeeds(inp, k - 1);
      assert forall i :: 0 <= i < |inp.order| ==> prev[i] == SeedAfter(inp, k - 1, i);
      StepSeeds(inp, k - 1);
      SeedsStep(inp, k, prev, PassUpTo(inp, k).seeds);
    }
  }

  /** The keys of the first k cards of the order. */
  function KeysOf(order: seq<nat>, k: nat): (keys: set<nat>)
    requires k <= |order|
  {
    if k == 0 then {} else KeysOf(order, k - 1) + {order[k - 1]}
  }

  /** `KeysOf` holds exactly the keys in the first k positions. */
  lemma {:induction false} KeysOfMembers(order: seq<nat>, k: nat)
    requires k <= |order|
    ensures forall key :: key in KeysOf(order, k) <==> key in order[..k]
  {
    if k > 0 {
      KeysOfMembers(order, k - 1);
      assert order[..k] == order[..k - 1] + [order[k - 1]];
    }
  }

  /** After the first k cards, the cache holds the old keys and those k cards' keys. */
  lemma {:induction false} PassCachesPlacedCards(inp: Inputs, k: nat)
    requires WellFormed(inp) && k <= |inp.order|
    ensures PassUpTo(inp, k).cache.Keys == inp.start.cache.Keys + KeysOf(inp.order, k)
    decreases k
  {
    if k > 0 {
      PassCachesPlacedCards(inp, k - 1);
      StepCacheKeys(inp, k - 1);
    }
  }

  /**
    With non-negative column widths and measured heights, no column ever
    gets lower during a pass.
  */
  lemma {:induction false} PassNeverLowers(inp: Inputs, k: nat)
    requires WellFormed(inp) && k <= |inp.order|
    requires inp.colWidth >= 0 && forall key, w :: inp.measure(key, w) >= 0
    ensures forall c :: 0 <= c < |inp.start.heights| ==> inp.start.heights[c] <= PassUpTo(inp, k).heights[c]
    decreases k
  {
    if k > 0 {
      PassNeverLowers(inp, k - 1);
      StepNeverLowers(inp, k - 1);
    }
  }

  lemma StepNeverLowers(inp: Inputs, i: nat)
    requires WellFormed(inp) && i < |inp.order|
    requires inp.colWidth >= 0 && forall key, w :: inp.measure(key, w) >= 0
    ensures forall c :: 0 <= c < |inp.start.heights| ==> PassUpTo(inp, i).heights[c] <= PassUpTo(inp, i + 1).heights[c]
  {
    var st := PassUpTo(inp, i);
    var p := Placed(inp, i);
    var c := inp.cards[inp.order[i]];
    PlaceIsLowest(c, inp.order[i], st.heights, inp.colWidth, st.seeds[i], inp.measure);
    PlaceHeightNonNegative(c, inp.order[i], st.heights, inp.colWidth, st.seeds[i], inp.measure);
    RaiseNeverLowers(st.heights, p.col, p.span, p.height);
  }

  /**
    Two pass inputs that agree on everything but the generator states and
    the position cache they start from.
  */
  ghost predicate SameButSeeds(a: Inputs, b: Inputs) {
    a.cards == b.cards && a.order == b.order && a.colWidth == b.colWidth && a.measure == b.measure
    && a.start.heights == b.start.heights && |a.start.seeds| == |b.start.seeds|
  }

  /** Both caches hold the same position for `key`. */
  ghost predicate SameEntry(c1: map<nat, Pos>, c2: map<nat, Pos>, key: nat) {
    key in c1 && key in c2 && c1[key] == c2[key]
  }

  /**
    On at most three columns the span rule always picks 1, so the card's
    window and size do not depend on the state of its generator.
  */
  lemma PlaceIgnoresSeedWhenNarrow(c: Card, key: nat, heights: seq<int>, colWidth: int, s1: bv32, s2: bv32,
                                   measure: (nat, int) -> int)
    requires 1 <= |heights| <= 3
    ensures var p1, p2 := Place(c, key, heights, colWidth, s1, measure), Place(c, key, heights, colWidth, s2, measure);
      p1.col == p2.col && p1.y == p2.y && p1.width == p2.width && p1.height == p2.height && p1.span == p2.span
  {
    CardDecisionCases(c, |heights|, s1);
    CardDecisionCases(c, |heights|, s2);
  }

  /** The card at position i lands in the same place in two narrow passes whose heights so far agree. */
  lemma NarrowPlacedIgnoresSeeds(a: Inputs, b: Inputs, i: nat)
    requires WellFormed(a) && WellFormed(b) && SameButSeeds(a, b) && |a.start.heights| <= 3 && i < |a.order|
    requires PassUpTo(a, i).heights == PassUpTo(b, i).heights
    ensures var pa, pb := Placed(a, i), Placed(b, i);
      pa.col == pb.col && pa.y == pb.y && pa.height == pb.height && pa.span == pb.span
  {
    var sa, sb := PassUpTo(a, i), PassUpTo(b, i);
    PlaceIgnoresSeedWhenNarrow(a.cards[a.order[i]], a.order[i], sa.heights, a.colWidth, sa.seeds[i], sb.seeds[i], a.measure);
  }

  /**
    Recording the card at position i of `order` with two placements that
    differ at most in their generator state changes the heights alike, and
    two caches that agreed on the keys of the first i positions then agree
    on the keys of the first i + 1.
  */
  lemma ApplyIgnoresSeed(sa: PassState, sb: PassState, order: seq<nat>, i: nat, colWidth: int, pa: Placement, pb: Placement)
    requires i < |order| && i < |sa.seeds| && i < |sb.seeds| && pa.col + pa.span <= |sa.heights|
    requires sa.heights == sb.heights
    requires forall j :: 0 <= j < i ==> SameEntry(sa.cache, sb.cache, order[j])
    requires pa.col == pb.col && pa.y == pb.y && pa.height == pb.height && pa.span == pb.span
    ensures Apply(sa, order[i], i, colWidth, pa).heights == Apply(sb, order[i], i, colWidth, pb).heights
    ensures forall j :: 0 <= j < i + 1 ==>
      SameEntry(Apply(sa, order[i], i, colWidth, pa).cache, Apply(sb, order[i], i, colWidth, pb).cache, order[j])
  {
  }

  /**
    After the first k cards, two passes have the same column heights, and
    their caches agree on the key of each of those k cards.
  */
  ghost predicate InStep(a: Inputs, b: Inputs, k: nat)
    requires WellFormed(a) && WellFormed(b) && k <= |a.order| && k <= |b.order|
  {
    PassUpTo(a, k).heights == PassUpTo(b, k).heights
    && forall j :: 0 <= j < k ==> SameEntry(PassUpTo(a, k).cache, PassUpTo(b, k).cache, a.order[j])
  }

  /** One turn keeps two narrow passes that differ only in their generators in step. */
  lemma NarrowStepIgnoresSeeds(a: Inputs, b: Inputs, i: nat)
    requires WellFormed(a) && WellFormed(b) && SameButSeeds(a, b) && |a.start.heights| <= 3 && i < |a.order|
    requires InStep(a, b, i)
    ensures InStep(a, b, i + 1)
  {
    NarrowPlacedIgnoresSeeds(a, b, i);
    ApplyIgnoresSeed(PassUpTo(a, i), PassUpTo(b, i), a.order, i, a.colWidth, Placed(a, i), Placed(b, i));
  }

  /** Two passes that start from the same heights are in step before any card is placed. */
  lemma InStepAtStart(a: Inputs, b: Inputs)
    requires WellFormed(a) && WellFormed(b) && SameButSeeds(a, b)
    ensures InStep(a, b, 0)
  {
  }

  /**
    On at most three columns a pass does not depend on the generator
    states or on the cache it starts from: two passes that start from
    different ones give the same heights, card after card, and the same
    position to every card placed so far.
  */
  lemma {:induction false} NarrowPassIgnoresSeeds(a: Inputs, b: Inputs, k: nat)
    requires WellFormed(a) && WellFormed(b) && SameButSeeds(a, b) && |a.start.heights| <= 3 && k <= |a.order|
    ensures InStep(a, b, k)
    decreases k
  {
    if k == 0 {
      InStepAtStart(a, b);
    } else {
      NarrowPassIgnoresSeeds(a, b, k - 1);
      NarrowStepIgnoresSeeds(a, b, k - 1);
    }
  }

  /**
    Below 1254px, where `decideCols` gives at most three columns, the grid
    width, the container height, the column heights and the cached position
    of every card of the order are the same whatever state the generators
    and the cache start in.
  */
  lemma NarrowLayoutIgnoresSeeds(cards: seq<Card>, order: seq<nat>, s1: seq<bv32>, s2: seq<bv32>,
                                 c1: map<nat, Pos>, c2: map<nat, Pos>, availRaw: int, measure: (nat, int) -> int)
    requires |order| == |s1| == |s2| && OrderFits(cards, order) && availRaw < 1254
    ensures var o1, o2 := LayoutPass(cards, order, s1, c1, availRaw, measure), LayoutPass(cards, order, s2, c2, availRaw, measure);
      o1.containerWidth == o2.containerWidth && o1.totalHeight == o2.totalHeight
      && o1.state.heights == o2.state.heights
      && forall key :: key in order ==> key in o1.state.cache && key in o2.state.cache && o1.state.cache[key] == o2.state.cache[key]
  {
    var a := LayoutInputs(cards, order, s1, c1, availRaw, measure);
    var b := LayoutInputs(cards, order, s2, c2, availRaw, measure);
    NarrowBelow(Max(0, availRaw));
    NarrowPassIgnoresSeeds(a, b, |order|);
    forall key | key in order
      ensures SameEntry(PassUpTo(a, |order|).cache, PassUpTo(b, |order|).cache, key)
    {
      var j :| 0 <= j < |order| && order[j] == key;
    }
  }

  /**
    Expanding a card and collapsing it again, when no card was open and the
    width stays below 1254px, gives the grid width, container height,
    column heights and card positions of the layout before: the two clicks
    each lay the gallery out again (script.js:224-236), and only the
    generator states differ.
  */
  lemma NarrowToggleTwiceRestoresLayout(cards: seq<Card>, order: seq<nat>, seeds: seq<bv32>, cache: map<nat, Pos>,
                                        availRaw: int, measure: (nat, int) -> int, k: nat)
    requires k < |cards| && forall i :: 0 <= i < |cards| ==> !cards[i].expanded
    requires |order| == |seeds| && OrderFits(cards, order) && availRaw < 1254
    ensures var o0 := LayoutPass(cards, order, seeds, cache, availRaw, measure);
      var once := Toggled(cards, k);
      var o1 := LayoutPass(once, order, o0.state.seeds, o0.state.cache, availRaw, measure);
      var o2 := LayoutPass(Toggled(once, k), order, o1.state.seeds, o1.state.cache, availRaw, measure);
      o2.containerWidth == o0.containerWidth && o2.totalHeight == o0.totalHeight
      && o2.state.heights == o0.state.heights
      && forall key :: key in order ==> key in o0.state.cache && key in o2.state.cache && o2.state.cache[key] == o0.state.cache[key]
  {
    var o0 := LayoutPass(cards, order, seeds, cache, availRaw, measure);
    var once := Toggled(cards, k);
    assert OrderFits(once, order);
    var o1 := LayoutPass(once, order, o0.state.seeds, o0.state.cache, availRaw, measure);
    ToggleTwiceRestores(cards, k);
    NarrowLayoutIgnoresSeeds(cards, order, seeds, o1.state.seeds, cache, o1.state.cache, availRaw, measure);
  }
}
