/**
  The cards as values: the attributes the layout reads, the default
  normalisation (script.js:105-118) and the expansion transitions of
  `collapseAll` (script.js:214-218), the click toggle (script.js:224-232)
  and `openSubpage` (script.js:271-277).
*/
module Cards {
  import opened Wrappers

  /**
    One `.projectCard`: `data-featured` (None when the attribute is absent),
    `data-ratio` (the empty string when absent or empty, both falsy),
    `data-page`, whether it has a `.cardPreview`, and its `expanded` class.
  */
  datatype Card = Card(featured: Option<string>, ratio: string, page: Option<string>,
                       hasPreview: bool, expanded: bool)

  /** How many leading cards become featured when none is marked. */
  const FEATURED_COUNT: nat := 3
  const FEATURED_RATIO: string := "16:9"
  /** The value written into `data-featured`. */
  const FEATURED_MARK: string := "1"
  const DEFAULT_RATIOS: seq<string> := ["1:1", "3:2", "16:9"]

  /** `cards.some((c) => c.hasAttribute("data-featured"))`. */
  predicate AnyFeatured(cs: seq<Card>) {
    exists i :: 0 <= i < |cs| && cs[i].featured.Some?
  }

  /** Marking one of the first cards featured, with 16:9 if it has no ratio. */
  function MarkFeatured(c: Card): (r: Card)
    ensures r.featured == Some(FEATURED_MARK) && r.ratio != ""
    ensures c.ratio != "" ==> r.ratio == c.ratio
    ensures r.(featured := c.featured, ratio := c.ratio) == c
  {
    c.(featured := Some(FEATURED_MARK), ratio := if c.ratio == "" then FEATURED_RATIO else c.ratio)
  }

  /**
    script.js:105-111: when no card is featured, the first three become so;
    afterwards some card is featured whenever there is a card at all.
  */
  function FeaturedDefaults(cs: seq<Card>): (r: seq<Card>)
    ensures |r| == |cs|
    ensures AnyFeatured(cs) ==> r == cs
    ensures !AnyFeatured(cs) ==> forall i :: 0 <= i < |cs| ==> (r[i].featured.Some? <==> i < FEATURED_COUNT)
    ensures !AnyFeatured(cs) ==> forall i :: 0 <= i < |cs| && i < FEATURED_COUNT ==> r[i] == MarkFeatured(cs[i])
    ensures forall i :: 0 <= i < |cs| && FEATURED_COUNT <= i ==> r[i] == cs[i]
    ensures AnyFeatured(r) <==> |cs| > 0
  {
    if AnyFeatured(cs) then cs
    else
      var r := seq(|cs|, i requires 0 <= i < |cs| => if i < FEATURED_COUNT then MarkFeatured(cs[i]) else cs[i]);
      assert |cs| > 0 ==> r[0].featured.Some?;
      r
  }

  /** The ratio a card at document position i falls back to. */
  function DefaultRatio(i: nat): (r: string)
    ensures r in DEFAULT_RATIOS && r != ""
  {
    DEFAULT_RATIOS[i % |DEFAULT_RATIOS|]
  }

  /** script.js:115-118: every card still without a ratio gets its default. */
  function RatioDefaults(cs: seq<Card>): (r: seq<Card>)
    ensures |r| == |cs|
    ensures forall i :: 0 <= i < |cs| ==> r[i].ratio != ""
    ensures forall i :: 0 <= i < |cs| ==> r[i].ratio == (if cs[i].ratio == "" then DefaultRatio(i) else cs[i].ratio)
    ensures forall i :: 0 <= i < |cs| ==> r[i].(ratio := cs[i].ratio) == cs[i]
  {
    seq(|cs|, i requires 0 <= i < |cs| => if cs[i].ratio == "" then cs[i].(ratio := DefaultRatio(i)) else cs[i])
  }

  /**
    The cards after both normalisation steps. Every card has a ratio, a
    ratio that was there is kept, and the featured set is the old one if
    any card was featured and otherwise exactly the first min(3, n) cards;
    nothing else changes.
  */
  function Normalized(cs: seq<Card>): (r: seq<Card>)
    ensures |r| == |cs|
    ensures forall i :: 0 <= i < |cs| ==> r[i].ratio != ""
    ensures forall i :: 0 <= i < |cs| && cs[i].ratio != "" ==> r[i].ratio == cs[i].ratio
    ensures AnyFeatured(cs) ==> forall i :: 0 <= i < |cs| ==> r[i].featured == cs[i].featured
    ensures !AnyFeatured(cs) ==> forall i :: 0 <= i < |cs| ==> (r[i].featured.Some? <==> i < FEATURED_COUNT)
    ensures !AnyFeatured(cs) ==> forall i :: 0 <= i < |cs| && i < FEATURED_COUNT ==> r[i].featured == Some(FEATURED_MARK)
    ensures forall i :: 0 <= i < |cs| && cs[i].ratio == "" ==>
      r[i].ratio == (if !AnyFeatured(cs) && i < FEATURED_COUNT then FEATURED_RATIO else DefaultRatio(i))
    ensures forall i :: 0 <= i < |cs| ==>
      r[i].page == cs[i].page && r[i].hasPreview == cs[i].hasPreview && r[i].expanded == cs[i].expanded
  {
    RatioDefaults(FeaturedDefaults(cs))
  }

  /** At most one card carries the `expanded` class. */
  predicate AtMostOneExpanded(cs: seq<Card>) {
    forall i, j :: 0 <= i < |cs| && 0 <= j < |cs| && cs[i].expanded && cs[j].expanded ==> i == j
  }

  /**
    `collapseAll(except)`: every other card loses `expanded`; the card
    `except` (which may be no card at all) keeps its flag, and nothing else
    changes.
  */
  function CollapsedExcept(cs: seq<Card>, except: int): (r: seq<Card>)
    ensures |r| == |cs|
    ensures forall i :: 0 <= i < |cs| ==> (r[i].expanded <==> i == except && cs[i].expanded)
    ensures SameButExpanded(cs, r)
    ensures 0 <= except < |cs| ==> r[except] == cs[except]
  {
    seq(|cs|, i requires 0 <= i < |cs| => if i == except then cs[i] else cs[i].(expanded := false))
  }

  /** Only the `expanded` flags differ between two card lists. */
  predicate SameButExpanded(a: seq<Card>, b: seq<Card>) {
    |a| == |b| && forall i :: 0 <= i < |a| ==> a[i].(expanded := false) == b[i].(expanded := false)
  }

  /**
    `collapseAll(card); card.classList.add("expanded")`: afterwards exactly
    the target is expanded, and nothing but `expanded` flags changed.
  */
  function Expand(cs: seq<Card>, k: nat): (r: seq<Card>)
    requires k < |cs|
    ensures |r| == |cs|
    ensures forall i :: 0 <= i < |cs| ==> (r[i].expanded <==> i == k)
    ensures SameButExpanded(cs, r)
  {
    CollapsedExcept(cs, k)[k := cs[k].(expanded := true)]
  }

  /**
    The click handler's state change on the card at k: a collapsed card
    becomes the only expanded one; an expanded card is cleared and every
    other flag kept. Either way at most one card stays expanded.
  */
  function Toggled(cs: seq<Card>, k: nat): (r: seq<Card>)
    requires k < |cs|
    ensures |r| == |cs|
    ensures !cs[k].expanded ==> forall i :: 0 <= i < |cs| ==> (r[i].expanded <==> i == k)
    ensures cs[k].expanded ==> forall i :: 0 <= i < |cs| ==> r[i].expanded == (i != k && cs[i].expanded)
    ensures SameButExpanded(cs, r)
    ensures AtMostOneExpanded(cs) ==> AtMostOneExpanded(r)
  {
    if cs[k].expanded then cs[k := cs[k].(expanded := false)] else Expand(cs, k)
  }

  /** With no card open, a second click on the same card undoes the first. */
  lemma ToggleTwiceRestores(cs: seq<Card>, k: nat)
    requires k < |cs| && forall i :: 0 <= i < |cs| ==> !cs[i].expanded
    ensures Toggled(Toggled(cs, k), k) == cs
  {
    var once := Toggled(cs, k);
    assert once[k].expanded;
    assert Toggled(once, k) == once[k := once[k].(expanded := false)];
    forall i | 0 <= i < |cs|
      ensures Toggled(once, k)[i] == cs[i]
    {
      assert once[i].(expanded := false) == cs[i].(expanded := false);
    }
  }

  /** `String(c.dataset.page)`: an absent attribute reads as "undefined". */
  function PageKey(page: Option<string>): string {
    match page
    case None => "undefined"
    case Some(s) => s
  }

  /** `cards.find(...)` from position `from` on: the first card whose page matches. */
  function FindPageFrom(cs: seq<Card>, page: string, from: nat): (r: Option<nat>)
    requires from <= |cs|
    ensures r.Some? ==> from <= r.value < |cs| && PageKey(cs[r.value].page) == page
    ensures r.Some? ==> forall i :: from <= i < r.value ==> PageKey(cs[i].page) != page
    ensures r.None? ==> forall i :: from <= i < |cs| ==> PageKey(cs[i].page) != page
    decreases |cs| - from
  {
    if from == |cs| then None
    else if PageKey(cs[from].page) == page then Some(from)
    else FindPageFrom(cs, page, from + 1)
  }

  /**
    The target of `openSubpage(pageNumber)`, with the number already a
    string: the first card whose page matches, or None when no card does.
  */
  function FindPage(cs: seq<Card>, page: string): (r: Option<nat>)
    ensures r.Some? ==> r.value < |cs| && PageKey(cs[r.value].page) == page
    ensures r.Some? ==> forall i :: 0 <= i < r.value ==> PageKey(cs[i].page) != page
    ensures r.None? ==> forall i :: 0 <= i < |cs| ==> PageKey(cs[i].page) != page
  {
    FindPageFrom(cs, page, 0)
  }
}
