/**
  The gallery as an object (script.js:23-287): the card list, one
  generator per position of the shuffled order, the shuffled order itself
  and the position cache, with set-up, `layout()`, `collapseAll`, the
  preview click and `openSubpage` as methods that update them in place.
*/
module Gallery {
  import opened Wrappers
  import opened JsMath
  import opened Mulberry
  import opened Shuffle
  import opened Ratio
  import opened Columns
  import opened Span
  import opened Packer
  import opened Cards
  import opened Pass

  /** The seed of the organic order. */
  const ORDER_SEED: bv32 := 2025
  /** Position i's generator starts at 1000 + i. */
  const SEED_BASE: nat := 1000
  /** How far above a card the scroller stops. */
  const SCROLL_MARGIN: int := 12

  /** `mulberry32(1000 + i)`: the seed is taken modulo 2^32. */
  function CardSeed(i: nat): bv32 {
    ((SEED_BASE + i) % TWO_32) as bv32
  }

  /** The generator states right after set-up. */
  function InitialSeeds(n: nat): (seeds: seq<bv32>)
    ensures |seeds| == n && forall i :: 0 <= i < n ==> seeds[i] == CardSeed(i)
  {
    seq(n, i requires 0 <= i => CardSeed(i))
  }

  /** The cards by document position, 0 .. n - 1: the identities the shuffle permutes. */
  function Range(n: nat): (r: seq<nat>)
    ensures |r| == n && forall i :: 0 <= i < n ==> r[i] == i
  {
    seq(n, i => i)
  }

  /** A permutation of 0 .. n - 1 names every card once and nothing else. */
  lemma PermutationCovers(order: seq<nat>, n: nat)
    requires multiset(order) == multiset(Range(n))
    ensures |order| == n
    ensures forall i :: 0 <= i < |order| ==> order[i] < n
    ensures forall k :: 0 <= k < n ==> k in order
  {
    assert |order| == |multiset(order)| == |multiset(Range(n))| == n;
    forall i | 0 <= i < |order|
      ensures order[i] < n
    {
      assert order[i] in multiset(Range(n));
    }
    forall k | 0 <= k < n
      ensures k in order
    {
      assert Range(n)[k] == k;
      assert k in multiset(order);
    }
  }

  /** The scroll target for a card whose top is at y. */
  function ScrollTop(y: int): (top: int)
    ensures top >= 0 && top >= y - SCROLL_MARGIN
    ensures top == 0 || top == y - SCROLL_MARGIN
  {
    Max(0, y - SCROLL_MARGIN)
  }

  /**
    After a pass whose order names every card, every card has a cache
    entry, so the scroll after a click or `openSubpage` always finds one.
  */
  lemma LayoutCachesEveryCard(cards: seq<Card>, order: seq<nat>, seeds: seq<bv32>, cache: map<nat, Pos>,
                              availRaw: int, measure: (nat, int) -> int)
    requires |order| == |seeds| && OrderFits(cards, order)
    requires forall k :: 0 <= k < |cards| ==> k in order
    ensures forall k :: 0 <= k < |cards| ==> k in LayoutPass(cards, order, seeds, cache, availRaw, measure).state.cache
  {
    var inp := LayoutInputs(cards, order, seeds, cache, availRaw, measure);
    PassCachesPlacedCards(inp, |order|);
    KeysOfMembers(order, |order|);
    assert order[..|order|] == order;
  }

  /** The generators' current states. */
  function SeedsOf(rs: seq<Mulberry32>): (seeds: seq<bv32>)
    reads rs
    ensures |seeds| == |rs|
    ensures forall i :: 0 <= i < |rs| ==> seeds[i] == rs[i].seed
  {
    seq(|rs|, i reads rs requires 0 <= i < |rs| => rs[i].seed)
  }

  class Gallery {
    /** The `.projectCard` elements in document order. */
    var cards: seq<Card>
    /** `perCardRand`: the generator of each position of `layoutOrder`. */
    var perCardRand: seq<Mulberry32>
    /** `layoutOrder`: the cards' document positions, shuffled. */
    var layoutOrder: seq<nat>
    /** `posCache`: each card's offset at the last layout, by document position. */
    var posCache: map<nat, Pos>
    /** Whether `#galleryScroll` exists. */
    const hasScroller: bool

    /**
      One generator per position, no two positions sharing one, and an
      order that names every card exactly once.
    */
    ghost predicate Valid()
      reads this`cards, this`perCardRand, this`layoutOrder
    {
      |cards| >= 1 && |layoutOrder| == |cards| && Generators()
      && (forall k :: 0 <= k < |cards| ==> k in layoutOrder)
    }

    /** The part of `Valid` that a pass relies on: one generator per position, none shared. */
    ghost predicate Generators()
      reads this`cards, this`perCardRand, this`layoutOrder
    {
      |perCardRand| == |layoutOrder| && OrderFits(cards, layoutOrder)
      && (forall i, j :: 0 <= i < j < |perCardRand| ==> perCardRand[i] != perCardRand[j])
    }

    /** Set-up (script.js:27-126) followed by the initial `layout()` (script.js:254). */
    constructor (initial: seq<Card>, hasScroller: bool, availRaw: int, measure: (nat, int) -> int)
      requires |initial| >= 1
      ensures Valid() && this.hasScroller == hasScroller
      ensures cards == Normalized(initial)
      ensures layoutOrder == Shuffled(Range(|initial|), ORDER_SEED)
      ensures var out := LayoutPass(cards, layoutOrder, InitialSeeds(|initial|), map[], availRaw, measure);
        posCache == out.state.cache && SeedsOf(perCardRand) == out.state.seeds
    {
      this.hasScroller := hasScroller;
      cards := initial;
      perCardRand := [];
      layoutOrder := [];
      posCache := map[];
      new;
      SetUp();
      var _, _ := Layout(availRaw, measure);
    }

    /** Set-up proper (script.js:104-123): the defaults, the generators and the organic order. */
    method SetUp()
      requires |cards| >= 1
      modifies this`cards, this`perCardRand, this`layoutOrder
      ensures Valid() && cards == Normalized(old(cards))
      ensures layoutOrder == Shuffled(Range(|old(cards)|), ORDER_SEED)
      ensures SeedsOf(perCardRand) == InitialSeeds(|old(cards)|) && fresh(perCardRand)
    {
      Normalize();
      CreateGenerators();
      ArrangeOrder();
    }

    /** script.js:104-118: the featured and the ratio defaults on the live cards. */
    method Normalize()
      modifies this`cards
      ensures cards == Normalized(old(cards))
    {
      ApplyFeaturedDefaults();
      ApplyRatioDefaults();
    }

    /** script.js:123: the organic order, the document positions shuffled with seed 2025. */
    method ArrangeOrder()
      modifies this`layoutOrder
      ensures layoutOrder == Shuffled(Range(|cards|), ORDER_SEED)
      ensures |layoutOrder| == |cards| && OrderFits(cards, layoutOrder)
      ensures forall k :: 0 <= k < |cards| ==> k in layoutOrder
    {
      layoutOrder := ShuffleStable(Range(|cards|), ORDER_SEED);
      PermutationCovers(layoutOrder, |cards|);
    }

    /** script.js:121: position i gets a fresh generator seeded with 1000 + i. */
    method CreateGenerators()
      modifies this`perCardRand
      ensures |perCardRand| == |cards| && SeedsOf(perCardRand) == InitialSeeds(|cards|)
      ensures forall i, j :: 0 <= i < j < |perCardRand| ==> perCardRand[i] != perCardRand[j]
      ensures fresh(perCardRand)
    {
      perCardRand := [];
      var i := 0;
      while i < |cards|
        invariant 0 <= i <= |cards| && |perCardRand| == i
        invariant forall j :: 0 <= j < i ==> perCardRand[j].seed == CardSeed(j)
        invariant forall j, k :: 0 <= j < k < i ==> perCardRand[j] != perCardRand[k]
        invariant fresh(perCardRand)
      {
        var r := new Mulberry32(CardSeed(i));
        perCardRand := perCardRand + [r];
        i := i + 1;
      }
    }

    /** script.js:105-111 on the live cards. */
    method ApplyFeaturedDefaults()
      modifies this`cards
      ensures cards == FeaturedDefaults(old(cards))
    {
      var any := false;
      var i := 0;
      while i < |cards| && !any
        invariant 0 <= i <= |cards|
        invariant any <==> exists j :: 0 <= j < i && cards[j].featured.Some?
      {
        any := cards[i].featured.Some?;
        i := i + 1;
      }
      if !any {
        ghost var before := cards;
        i := 0;
        while i < |cards| && i < FEATURED_COUNT
          invariant 0 <= i <= |cards| == |before| && i <= FEATURED_COUNT
          invariant forall j :: 0 <= j < |cards| ==> cards[j] == (if j < i then MarkFeatured(before[j]) else before[j])
        {
          cards := cards[i := MarkFeatured(cards[i])];
          i := i + 1;
        }
        assert !AnyFeatured(before);
        assert forall j :: 0 <= j < |cards| ==> cards[j] == FeaturedDefaults(before)[j];
      }
    }

    /** script.js:115-118 on the live cards. */
    method ApplyRatioDefaults()
      modifies this`cards
      ensures cards == RatioDefaults(old(cards))
    {
      var i := 0;
      while i < |cards|
        invariant 0 <= i <= |cards| == |old(cards)|
        invariant forall j :: 0 <= j < |cards| ==>
          cards[j] == (if j < i && old(cards)[j].ratio == "" then old(cards)[j].(ratio := DefaultRatio(j)) else old(cards)[j])
      {
        if cards[i].ratio == "" {
          cards := cards[i := cards[i].(ratio := DefaultRatio(i))];
        }
        i := i + 1;
      }
    }

    /** `collapseAll(except)`: every card but the one at `except` loses `expanded`. */
    method CollapseAll(except: int)
      modifies this`cards
      ensures cards == CollapsedExcept(old(cards), except)
    {
      var i := 0;
      while i < |cards|
        invariant 0 <= i <= |cards| == |old(cards)|
        invariant forall j :: 0 <= j < |cards| ==>
          cards[j] == (if j < i && j != except then old(cards)[j].(expanded := false) else old(cards)[j])
      {
        if i != except {
          cards := cards[i := cards[i].(expanded := false)];
        }
        i := i + 1;
      }
    }

    /** `collapseAll(card); card.classList.add("expanded")` for the card at k. */
    method ExpandOnly(k: nat)
      requires k < |cards|
      modifies this`cards
      ensures cards == Expand(old(cards), k)
    {
      CollapseAll(k);
      cards := cards[k := cards[k].(expanded := true)];
    }

    /**
      `layout()` (script.js:128-208): one pass over the order with the
      raw available width `availRaw` and the height measure of expanded
      cards. Returns the grid width and the container height; the cache
      and the generators end as `LayoutPass` says.
    */
    method Layout(availRaw: int, measure: (nat, int) -> int) returns (containerWidth: int, totalHeight: int)
      requires Valid()
      modifies this`posCache, perCardRand
      ensures Valid()
      ensures var out := LayoutPass(cards, layoutOrder, old(SeedsOf(perCardRand)), old(posCache), availRaw, measure);
        containerWidth == out.containerWidth && totalHeight == out.totalHeight
        && posCache == out.state.cache && SeedsOf(perCardRand) == out.state.seeds
      ensures forall k :: 0 <= k < |cards| ==> k in posCache
    {
      var avail := Max(0, availRaw);
      var cols := DecideCols(avail);
      var colWidth := ColWidth(avail, cols);
      containerWidth := SpanWidth(cols, colWidth);
      var heights := new int[cols](_ => 0);
      ghost var inp := LayoutInputs(cards, layoutOrder, SeedsOf(perCardRand), posCache, availRaw, measure);
      assert heights[..] == Flat(cols);
      PlaceAll(heights, colWidth, measure, inp);
      totalHeight := ContainerHeight(heights[..]);
      LayoutCachesEveryCard(cards, layoutOrder, inp.start.seeds, inp.start.cache, availRaw, measure);
    }

    /** The live heights, cache and generators are the state of the pass after its first k cards. */
    ghost predicate Reached(heights: array<int>, inp: Inputs, k: nat)
      reads heights, this`posCache, this`perCardRand, perCardRand
    {
      WellFormed(inp) && k <= |inp.order|
      && PassState(heights[..], posCache, SeedsOf(perCardRand)) == PassUpTo(inp, k)
    }

    /** The `forEach` of script.js:150-203: every position of the order in turn. */
    method PlaceAll(heights: array<int>, colWidth: int, measure: (nat, int) -> int, ghost inp: Inputs)
      requires Generators() && WellFormed(inp)
      requires inp.cards == cards && inp.order == layoutOrder && inp.colWidth == colWidth && inp.measure == measure
      requires heights.Length == |inp.start.heights|
      requires PassState(heights[..], posCache, SeedsOf(perCardRand)) == inp.start
      modifies heights, this`posCache, perCardRand
      ensures Reached(heights, inp, |layoutOrder|)
    {
      var i := 0;
      while i < |layoutOrder|
        invariant 0 <= i <= |layoutOrder| && Generators() && heights.Length == |inp.start.heights|
        invariant Reached(heights, inp, i)
      {
        PlaceCard(heights, i, colWidth, measure, inp);
        i := i + 1;
      }
    }

    /**
      script.js:151-186 for card c with key `key`: its span (drawing from
      `rand` when it must), size and window, computed on the current
      heights, which it leaves alone.
    */
    static method PlanCard(heights: array<int>, c: Card, key: nat, colWidth: int, measure: (nat, int) -> int,
                           rand: Mulberry32) returns (p: Placement)
      requires heights.Length >= 1
      modifies rand
      ensures p == Place(c, key, heights[..], colWidth, old(rand.seed), measure)
      ensures rand.seed == p.seed
    {
      var cols := heights.Length;
      var span: nat;
      if c.expanded {
        span := cols;
      } else {
        var s := DecideSpan(c.featured, cols, rand);
        DecidedSpanBounds(c.featured, cols, old(rand.seed));
        span := Min(s, cols);
      }
      var width := SpanWidth(span, colWidth);
      var height := if c.expanded then measure(key, width) else CollapsedHeight(width, ParseRatio(RatioText(c)));
      var bestCol, bestY := ScanWindows(heights, span);
      p := Placement(bestCol, bestY, width, height, span, rand.seed);
    }

    /**
      The body of the `forEach` (script.js:150-202) for position i: the
      state moves from the pass after i cards to the pass after i + 1.
    */
    method PlaceCard(heights: array<int>, i: nat, colWidth: int, measure: (nat, int) -> int, ghost inp: Inputs)
      requires Generators() && i < |layoutOrder|
      requires inp.cards == cards && inp.order == layoutOrder && inp.colWidth == colWidth && inp.measure == measure
      requires heights.Length == |inp.start.heights|
      requires Reached(heights, inp, i)
      modifies heights, this`posCache, perCardRand[i]
      ensures Reached(heights, inp, i + 1)
    {
      ghost var st := PassUpTo(inp, i);
      StepCard(heights, i, colWidth, measure, st);
      PassStep(inp, i);
    }

    /**
      The same body stated on the state st it starts from: card
      `layoutOrder[i]` is planned on st, recorded in the cache, and its
      window raised.
    */
    method StepCard(heights: array<int>, i: nat, colWidth: int, measure: (nat, int) -> int, ghost st: PassState)
      requires Generators() && i < |layoutOrder| && heights.Length >= 1
      requires PassState(heights[..], posCache, SeedsOf(perCardRand)) == st
      modifies heights, this`posCache, perCardRand[i]
      ensures PassState(heights[..], posCache, SeedsOf(perCardRand))
        == Apply(st, layoutOrder[i], i, colWidth,
                 Place(cards[layoutOrder[i]], layoutOrder[i], st.heights, colWidth, st.seeds[i], measure))
    {
      var key := layoutOrder[i];
      var p := PlanCard(heights, cards[key], key, colWidth, measure, perCardRand[i]);
      Record(heights, key, colWidth, p);
    }

    /**
      script.js:188-202 for a planned placement p of card `key`: its
      offset goes to the cache and its window is raised under it.
    */
    method Record(heights: array<int>, key: nat, colWidth: int, p: Placement)
      requires p.col + p.span <= heights.Length
      modifies heights, this`posCache
      ensures heights[..] == Raised(old(heights[..]), p.col, p.span, p.y + p.height + GAP)
      ensures posCache == old(posCache)[key := Pos(Offset(p.col, colWidth), p.y)]
    {
      posCache := posCache[key := Pos(Offset(p.col, colWidth), p.y)];
      RaiseWindow(heights, p.col, p.span, p.y + p.height + GAP);
    }

    /**
      A click on the preview of card k (script.js:224-242): the card is
      toggled, the gallery laid out again, and when the card opened and a
      scroller exists the scroller is sent to 12px above its top.
    */
    method Click(k: nat, availRaw: int, measure: (nat, int) -> int) returns (scrollTop: Option<int>)
      requires Valid() && k < |cards| && cards[k].hasPreview
      modifies this`cards, this`posCache, perCardRand
      ensures Valid() && cards == Toggled(old(cards), k)
      ensures var out := LayoutPass(cards, layoutOrder, old(SeedsOf(perCardRand)), old(posCache), availRaw, measure);
        posCache == out.state.cache && SeedsOf(perCardRand) == out.state.seeds
      ensures k in posCache
      ensures scrollTop == if !old(cards)[k].expanded && hasScroller then Some(ScrollTop(posCache[k].y)) else None
    {
      var willExpand := !cards[k].expanded;
      if willExpand {
        ExpandOnly(k);
      } else {
        cards := cards[k := cards[k].(expanded := false)];
      }
      var _, _ := Layout(availRaw, measure);
      scrollTop := None;
      if willExpand && hasScroller {
        scrollTop := Some(ScrollTop(posCache[k].y));
      }
    }

    /**
      `openSubpage(pageNumber)` (script.js:259-287) with the page number
      already a string: when no card has that page nothing changes;
      otherwise the first such card becomes the only expanded one, the
      gallery is laid out again and, with a scroller, the scroll target is
      12px above the card.
    */
    method OpenSubpage(page: string, availRaw: int, measure: (nat, int) -> int) returns (scrollTop: Option<int>)
      requires Valid()
      modifies this`cards, this`posCache, perCardRand
      ensures Valid()
      ensures FindPage(old(cards), page).None? ==>
        cards == old(cards) && posCache == old(posCache) && SeedsOf(perCardRand) == old(SeedsOf(perCardRand)) && scrollTop.None?
      ensures FindPage(old(cards), page).Some? ==>
        var t := FindPage(old(cards), page).value;
        var out := LayoutPass(cards, layoutOrder, old(SeedsOf(perCardRand)), old(posCache), availRaw, measure);
        cards == Expand(old(cards), t) && posCache == out.state.cache && SeedsOf(perCardRand) == out.state.seeds
        && t in posCache
        && scrollTop == if hasScroller then Some(ScrollTop(posCache[t].y)) else None
    {
      var target := FindPage(cards, page);
      if target.None? {
        return None;
      }
      var t := target.value;
      ExpandOnly(t);
      var _, _ := Layout(availRaw, measure);
      scrollTop := None;
      if hasScroller {
        scrollTop := Some(ScrollTop(posCache[t].y));
      }
    }
  }
}
