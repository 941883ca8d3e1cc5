# Organic masonry gallery: a verified model of its layout engine

This project models the gallery layout engine of `script.js`: the part of
the site script that arranges the `.projectCard` elements of
`#galleryList` into an "organic" masonry grid and expands a card when its
preview is clicked or when `openSubpage(pageNumber)` is called.

The model follows the code module by module:

- `Mulberry` — the seeded generator `mulberry32`. It is a class whose
  `seed: bv32` field is the state the JavaScript closure captures, and
  each draw is its uint32 numerator.
- `Shuffle` — `shuffleStable`, a backward Fisher-Yates pass on a fresh
  array, specified by the function `Shuffled`.
- `Ratio` — `parseRatio`, with `split(/[:/x]/)`, `Number` on
  decimal-digit fields and `|| 1`.
- `Columns` — `decideCols`, the column width and the width of a run of
  columns.
- `Span` — `colsCategory` and `decideSpan`, on a live generator
  (`DecideSpan`) and as a function of the generator state (`Decide`).
- `Packer` — the pieces of the loop body of `layout()`:
  - the lowest-window scan on `heights: array<int>`;
  - the raise of the chosen window;
  - the container height;
  - the collapsed card height;
  - the card offset.
- `Cards` — the cards as values, the default featured/ratio
  normalisation, and the expansion transitions of `collapseAll`, the
  click handler and `openSubpage`.
- `Pass` — one whole `layout()` pass as a function. `PassUpTo(inp, k)` is
  the column heights, position cache and generator states after the
  first k cards of the shuffled order. The lemmas are about whole passes:
  every placed card is cached, a generator advances only for cards that
  draw, and, when the available width is at least 18px, no column gets
  lower. Below 18px the floor column width is negative
  (`Columns.ColWidthNonNegative`).
- `Gallery` — the gallery object. The class `Gallery` has the fields
  `cards`, `perCardRand`, `layoutOrder` and `posCache`. Its methods are:
  - the constructor: set-up, the shuffle and the first `layout()`;
  - `Layout`, which fills a fresh `heights` array card by card;
  - `CollapseAll`;
  - `Click`;
  - `OpenSubpage`.

  Each method is proved to leave the object in exactly the state the
  functions of `Pass` and `Cards` describe.

The quirks of the code are reproduced, not corrected:
- The generator used for a card is the one of its position in the
  shuffled order, not of the card (`Pass.PassAdvancesSeeds`).
- Every `layout()` advances the generators of all drawing positions, so
  two passes over the same cards can decide different spans.
- The `MIN_COL_WIDTH` step of `decideCols` never decides the result
  (`Columns.DecideColsIsSoftCapClamped`).

Three consequences of the code are worth stating, because they are easy to
get wrong when reading it:
- **640px area.** A 640px area gets two 311px columns, not three 201px
  ones, because the soft cap by `MAX_COL_WIDTH` wins
  (`Columns.ExampleWidths`).
- **Expand then collapse.** When no card was open before, expanding a
  card and collapsing it again restores every card's `expanded` flag
  (`Cards.ToggleTwiceRestores`). With another card open first, that card
  stays closed, because the click collapses all cards before it expands
  one.
- **Positions after expand then collapse.** Below 1254px the grid has at
  most three columns (`Columns.NarrowBelow`). There a card's span
  depends on no generator, so the layout depends neither on the
  generators nor on the cache it starts from
  (`Pass.NarrowLayoutIgnoresSeeds`). So, when no card was open and
  the width stays the same, the second layout gives every card its
  earlier position, with the same grid width, column heights and
  container height (`Pass.NarrowToggleTwiceRestoresLayout`). With four
  or more columns the spans of non-featured cards follow the draws, and
  the two layouts in between have advanced the per-position generators.
  So the positions can differ only there.

## Model

| member | source | states |
|---|---|---|
| Mulberry.Mulberry32.constructor | script.js:41 | a new generator holds the seed it was created with |
| Mulberry.Advance | script.js:43 | the definition `t = seed += 0x6D2B79F5` as a wrapping 32-bit add; `Mulberry.Mulberry32.Next` states it of the live state |
| Mulberry.Mixed | script.js:44-46 | the value of `t` after the first k mixing statements; its property is stated by `Mulberry.MixFromStages` |
| Mulberry.MixStage | script.js:44-46 | mixing statement k of the closure body (`FirstMix`, `SecondMix`, `FinalMix`); used by `Mulberry.MixFromStages` |
| Mulberry.Mix | script.js:44-46 | the numerator a draw returns from the advanced state; its reference values are stated by `Mulberry.KnownDraws` |
| Mulberry.MixFromStages | script.js:44-46 | a draw's numerator is the value the three mixing statements leave, one after the other |
| Mulberry.KnownDraws | script.js:41-47 | reference values: the first two numerators of the generator seeded 2025 and the first of the one seeded 1000 |
| Mulberry.Mulberry32.Next | script.js:42-47 | a call adds 0x6d2b79f5 to the state modulo 2^32 and returns the mixed numerator of the new state |
| Mulberry.ToUnit | script.js:46 | every draw n / 2^32 lies in [0, 1) |
| Mulberry.Unit | script.js:46 | the draw of numerator k is the exact real k / 2^32 |
| Mulberry.SwapIndex | script.js:53 | `Math.floor(rand() * (i + 1))` never leaves [0, i] |
| Mulberry.UnitThresholds | script.js:95-100 | r < 0.35 iff n < 1503238554, and r < 0.15 iff n < 644245095, for r = n / 2^32 |
| Shuffle.Swapped | script.js:54 | the destructuring swap keeps the length |
| Shuffle.SwappedPermutes | script.js:54 | a swap permutes the array |
| Shuffle.ShuffleFrom | script.js:52-55 | the remaining turns of the loop from counter i down to 1; it keeps the length, and `Shuffle.ShuffleFromPermutes` states that it permutes |
| Shuffle.ShuffleFromStep | script.js:52-55 | unfolds the definition of `ShuffleFrom` by one turn: draw, swap a[i] with a[j], continue from i - 1 with the advanced state |
| Shuffle.ShuffleFromPermutes | script.js:52-55 | the remaining turns of the pass give a permutation, whatever the generator state |
| Shuffle.Shuffled | script.js:49-57 | what `shuffleStable(arr, seed)` returns, the whole loop from the last index; `Shuffle.ShuffledIsPermutation` states that it permutes |
| Shuffle.ShuffledIsPermutation | script.js:49-57 | `shuffleStable` returns a permutation of its input of the same length, for every seed |
| Shuffle.SwapInPlace | script.js:54 | the in-place swap leaves the array equal to `Swapped` of its old contents |
| Shuffle.Turn | script.js:53-54 | one turn on the array: the generator advanced once, the array swapped at the index drawn |
| Shuffle.ShuffleArray | script.js:50-55 | the backward loop leaves the array holding `Shuffled` of its old contents |
| Shuffle.ShuffleStable | script.js:49-57 | the result is `Shuffled(arr, seed)`, a permutation of `arr`; the input is a value and stays unchanged |
| Ratio.Split | script.js:62 | splitting on `/[:/x]/` gives one more field than there are separators; no field has a separator; the fields joined are the string without separators |
| Ratio.OrOne | script.js:63 | `x \|\| 1` is x when x is a non-zero number and 1 for 0 or NaN |
| Ratio.ParseRatio | script.js:60-64 | both components are at least 1; the empty (falsy) string gives 1:1 |
| Ratio.SplitIgnoresSeparatorKind | script.js:62 | the split does not depend on which of ':', '/', 'x' separates |
| Ratio.SeparatorsParseAlike | script.js:60-64 | "a:b", "a/b" and "axb" parse to the same ratio |
| Ratio.MissingHeightIsOne | script.js:62-63 | a string without a separator has height 1 |
| Ratio.ToNumber | script.js:62 | `Number` on a field: decimal digits are their value, the empty field is 0, anything else NaN; `Ratio.DecimalRoundTrip` states that it reads a decimal form back |
| Ratio.DecimalRoundTrip | script.js:62 | `Number` reads a decimal string back as its value |
| Ratio.FormatThenParse | script.js:60-64 | writing a positive ratio as "W:H" (or with '/' or 'x') and parsing it gives it back |
| Columns.ColWidth | script.js:140 | the floor column width `(avail - (cols - 1) * GAP) / cols`; its bounds are stated by `Columns.GridFits` and `Columns.ColWidthNonNegative` |
| Columns.SpanWidth | script.js:143-156 | the width of n columns with their gaps; its bounds are stated by `Columns.GridFits` and `Packer.PlacementWithinGrid` |
| Columns.NarrowBelow | script.js:67-79 | the grid has at most three columns exactly when the width is below 1254px |
| Columns.ColWidthNonNegative | script.js:137-140 | the decided column width is non-negative exactly when the width is at least 18px |
| Columns.DecideCols | script.js:67-79 | the column count always lies in [2, 8] |
| Columns.DecideColsIsSoftCapClamped | script.js:67-79 | the count equals the number of 300px columns that fit, clamped to [2, 8] |
| Columns.GridFits | script.js:140-143 | the grid width `cols*colWidth+(cols-1)*GAP` is at most the available width and wastes less than one pixel per column |
| Columns.WideEnoughColumns | script.js:74-77 | whenever two 300px columns fit, every column is at least 300px wide |
| Columns.ColumnStepPositive | script.js:137-140 | for a non-negative width, `colWidth + GAP` is positive, so offsets grow with the column index |
| Columns.ExampleWidths | script.js:139-143 | 640px gives 2 columns of 311px and a 640px grid; 1280px gives 4 columns of 306px |
| JsMath.RoundDiv | script.js:174 | `Math.round(a / b)` is the integer within one half of a / b, halves rounding up |
| Span.ColsCategory | script.js:81-85 | the definition: up to 3 columns narrow, up to 5 medium, otherwise wide; `Span.SpanForDraw` states the resulting spans |
| Span.SpanForDraw | script.js:92-101 | span 1 or 2; 1 when cols <= 3; 2 exactly for more than 5 columns below the wide cutoff or 4-5 columns below the medium cutoff |
| Span.SpanRule | script.js:92-101 | the comparisons of the real draw with 0.35 and 0.15 as written, per category; `Span.SpanForDrawIsSpanRule` ties them to the numerator rule |
| Span.SpanForDrawIsSpanRule | script.js:93-101 | deciding on the numerator agrees with the source's comparison of the real draw with 0.35 and 0.15 |
| Span.Truthy | script.js:90 | the definition: `dataset.featured` is present and not empty; `Span.Decide` states what it decides |
| Span.Decide | script.js:88-102 | a featured card gets min(2, cols) and the generator is untouched; any other card advances it exactly once and gets the rule on that draw |
| Span.DecidedSpanBounds | script.js:88-102 | the span lies in [1, min(2, cols)]; a non-featured card with cols <= 3 gets 1 |
| Span.DecideSpan | script.js:88-102 | the live `decideSpan` returns the span and leaves the generator in the state `Decide` says |
| Packer.WindowMax | script.js:181 | the top of a window is at least every column in it |
| Packer.WindowMaxAttained | script.js:181 | the top of a window is the height of one of its columns |
| Packer.BestAmong | script.js:180-186 | after m window starts, the kept start is below m |
| Packer.BestAmongIsLeftmostLowest | script.js:178-186 | the kept window's top is its maximum, no scanned window is lower, and every scanned window to its left is strictly higher |
| Packer.BestWindow | script.js:178-186 | the chosen window lies inside the row |
| Packer.BestWindowIsLeftmostLowest | script.js:178-186 | the chosen window is the leftmost lowest among all windows 0 .. cols - span |
| Packer.ScanWindows | script.js:177-186 | the loop on the array runs at least once, ends with a finite `bestY`, `bestCol + span <= cols`, `bestY` the window's maximum, no lower window and no equal window to its left |
| Packer.Raised | script.js:199-202 | raising a window keeps the number of columns |
| Packer.RaisedAt | script.js:199-202 | exactly the columns bestCol .. bestCol + span - 1 take the new value; all others keep theirs |
| Packer.RaiseWindow | script.js:199-202 | the update loop leaves `heights` equal to `Raised` of its old contents |
| Packer.RaiseNeverLowers | script.js:199-202 | with a non-negative card height no column gets lower, and every column of the window gets strictly higher |
| Packer.ContainerHeight | script.js:206 | `Math.max(...heights, 0)`: at least 0 and every column, and equal to 0 or one of them |
| Packer.CollapsedHeight | script.js:174 | the collapsed height is `width * h / w` rounded half up |
| Packer.CollapsedHeightNonNegative | script.js:174 | a non-negative width has a non-negative collapsed height |
| Packer.Offset | script.js:188 | the left edge `bestCol * (colWidth + GAP)`; its bounds are stated by `Packer.PlacementWithinGrid` and `Pass.PlaceWithinGrid` |
| Packer.PlacementWithinGrid | script.js:143-188 | a card on a window of the grid has 0 <= x and x + width <= the grid width; a card spanning every column starts at 0 and is as wide as the grid |
| Cards.DefaultRatio | script.js:115-117 | the fallback ratio is one of "1:1", "3:2", "16:9", and so never empty |
| Cards.AnyFeatured | script.js:105 | the definition: some card has a `data-featured` attribute; `Cards.FeaturedDefaults` states how it decides the defaults |
| Cards.MarkFeatured | script.js:107-110 | the card becomes featured "1", gets a ratio, keeps an existing ratio, and nothing else changes |
| Cards.FeaturedDefaults | script.js:105-111 | with a featured card nothing changes; otherwise exactly the first min(3, n) cards are marked; afterwards some card is featured iff there is a card |
| Cards.RatioDefaults | script.js:115-118 | every card gets a ratio: an existing one is kept, a missing one becomes `DefaultRatio` of its position; nothing else changes |
| Cards.Normalized | script.js:104-118 | every card gets a ratio; existing ratios are kept; if none was featured, exactly the first min(3, n) become featured ("1", and 16:9 when ratio-less), otherwise the featured set is unchanged; nothing else changes |
| Cards.CollapsedExcept | script.js:214-218 | `collapseAll(except)` keeps the number of cards; afterwards a card is expanded iff it is `except` and was expanded; only `expanded` flags change, and card `except` is untouched |
| Cards.Expand | script.js:226-228 | after expanding card k exactly card k is expanded, and only `expanded` flags changed |
| Cards.Toggled | script.js:225-231 | a click on a collapsed card makes it the only expanded one; on an expanded card it clears that card alone; at most one expanded card stays so |
| Cards.ToggleTwiceRestores | script.js:225-231 | with nothing open, two clicks on the same card restore every card |
| Cards.PageKey | script.js:271 | the definition: `String(dataset.page)`, with an absent page read as "undefined"; `Cards.FindPage` states the search |
| Cards.FindPageFrom | script.js:271 | the first card whose `String(dataset.page)` matches, or none when no card matches |
| Cards.FindPage | script.js:271 | the first card whose page key matches, with every earlier card not matching, or none when no card matches |
| Pass.RatioText | script.js:154 | `card.dataset.ratio \|\| "1:1"`: the card's own ratio when it has one, "1:1" when it has none, and so never empty |
| Pass.CardDecision | script.js:153 | the span lies in [1, cols] |
| Pass.CardDecisionCases | script.js:153 | an expanded card spans all columns and draws nothing; a featured one gets min(2, cols) without a draw; any other takes the rule on one fresh draw |
| Pass.Place | script.js:150-196 | the placed card's window lies inside the grid and its width is its span's width |
| Pass.PlaceWithinGrid | script.js:143-188 | x >= 0 and x + width <= the grid width; an expanded card is at x = 0 and as wide as the grid |
| Pass.PlaceIsLowest | script.js:177-186 | the card is placed on the leftmost lowest window for its span, at that window's top |
| Pass.PlaceHeightNonNegative | script.js:156-175 | with non-negative widths and measured heights a placed card has a non-negative height |
| Pass.Apply | script.js:196-202 | recording a placement keeps the number of columns and generators |
| Pass.PassUpTo | script.js:150-203 | a partial pass keeps the number of columns and generators |
| Pass.Placed | script.js:150-196 | every card of the pass is placed on a window inside the grid |
| Pass.PassStep | script.js:150-203 | unfolds the definition of `PassUpTo` by one turn: the card at position i is placed on the heights and generator state the earlier turns left |
| Pass.Flat | script.js:147 | the definition: `Array(cols).fill(0)`; `Pass.LayoutInputs` uses it as the starting heights |
| Pass.LayoutInputs | script.js:137-147 | the inputs of a pass, built from `Math.max(0, avail)`, `decideCols`, the floor column width and all-zero heights, are well formed whenever the order fits the cards and there is one generator per position |
| Pass.LayoutPass | script.js:128-208 | the grid is no wider than the available width, the container height is non-negative, the pass ends with `decideCols` columns and as many generators as it started with |
| Pass.StepSeeds | script.js:150-153 | a turn changes only the generator of its own position, and advances it exactly when the card draws |
| Pass.StepCacheKeys | script.js:196 | a turn adds exactly its card to the position cache |
| Pass.PassAdvancesSeeds | script.js:121-153 | after k cards the generator of position i has advanced once iff i < k and the card at position i is neither expanded nor featured |
| Pass.PassCachesPlacedCards | script.js:196 | after k cards the cache holds the old keys and the keys of the first k cards |
| Pass.StepNeverLowers | script.js:199-202 | with non-negative widths and measures a turn lowers no column |
| Pass.PassNeverLowers | script.js:147-203 | with a non-negative column width, which holds for an available width of at least 18px (`Columns.ColWidthNonNegative`), and non-negative measures, no column of the pass is ever lower than where it started |
| Pass.PlaceIgnoresSeedWhenNarrow | script.js:88-186 | with at most three columns a card's column, top, width, height and span do not depend on its generator state |
| Pass.NarrowPlacedIgnoresSeeds | script.js:150-186 | with at most three columns, two passes that differ only in generator states place card i alike when they reach it on the same heights |
| Pass.ApplyIgnoresSeed | script.js:196-202 | recording the card at position i with two placements of the same window and height gives the same heights, and two caches that agreed on the keys of the first i positions then agree on the first i + 1 |
| Pass.InStepAtStart | script.js:147 | two passes that start from the same heights are in step before any card is placed |
| Pass.NarrowStepIgnoresSeeds | script.js:150-203 | with at most three columns, one more turn keeps the two passes' heights equal and their caches agreeing on every card placed so far |
| Pass.NarrowPassIgnoresSeeds | script.js:150-203 | with at most three columns, passes that differ only in generator states and starting cache have equal heights throughout and give every card placed so far the same position |
| Pass.NarrowLayoutIgnoresSeeds | script.js:128-208 | below 1254px two layouts of the same cards that differ in generator states and starting cache give the same grid width, container height and column heights, and the same cached position to every card of the order |
| Pass.NarrowToggleTwiceRestoresLayout | script.js:224-236 | below 1254px, with no card open, the layout after two clicks on the same card has the grid width, container height, column heights and card positions of the layout before them |
| Gallery.CardSeed | script.js:121 | the definition: seed 1000 + i modulo 2^32; `Gallery.InitialSeeds` and `Gallery.Gallery.CreateGenerators` state it of the set-up |
| Gallery.InitialSeeds | script.js:121 | generator i starts from 1000 + i modulo 2^32 |
| Gallery.PermutationCovers | script.js:123 | an order that permutes the document positions names every card and nothing else |
| Gallery.ScrollTop | script.js:238 | the scroll target is 12px above the card's top, and never below 0 |
| Gallery.LayoutCachesEveryCard | script.js:196-236 | after a pass over an order naming every card, every card has a cache entry, so the later `posCache.get` always finds one |
| Gallery.Gallery.constructor | script.js:104-126 | set-up (`SetUp`) gives the normalised cards, generators 1000 + i, the order `shuffleStable(0..n-1, 2025)`, and then the cache and generator states of the initial `layout()` (script.js:254) |
| Gallery.Gallery.SetUp | script.js:104-123 | the cards become `Normalized`, the generators are fresh and seeded 1000 + i, and the order is `shuffleStable(0..n-1, 2025)`; the object is valid |
| Gallery.Gallery.Normalize | script.js:104-118 | the two default loops leave the cards as `Normalized` of the old cards |
| Gallery.Gallery.ArrangeOrder | script.js:123 | the order becomes `shuffleStable(0..n-1, 2025)` and names every card exactly once |
| Gallery.Gallery.CreateGenerators | script.js:121 | one fresh generator per position, seeded 1000 + i, no two shared |
| Gallery.Gallery.ApplyFeaturedDefaults | script.js:105-111 | the loops leave the cards as `FeaturedDefaults` of the old cards |
| Gallery.Gallery.ApplyRatioDefaults | script.js:115-118 | the loop leaves the cards as `RatioDefaults` of the old cards |
| Gallery.Gallery.CollapseAll | script.js:214-218 | the loop leaves the cards as `CollapsedExcept` of the old cards: every card but `except` loses `expanded`, and nothing else changes |
| Gallery.Gallery.ExpandOnly | script.js:227-228 | the cards become `Expand` of the old cards |
| Gallery.Gallery.Layout | script.js:128-208 | `layout()` returns the grid width and container height of `LayoutPass` and leaves the cache and generators as the pass says; every card is cached |
| Gallery.Gallery.PlaceAll | script.js:150-203 | the `forEach` over the order leaves heights, cache and generators as the whole pass says |
| Gallery.Gallery.PlanCard | script.js:151-186 | span, width, height and window computed on the live array and generator equal `Place`; the generator ends in the placement's state |
| Gallery.Gallery.PlaceCard | script.js:150-203 | one turn moves the live state from the pass after i cards to the pass after i + 1 |
| Gallery.Gallery.StepCard | script.js:151-202 | one turn records the card's offset in the cache, raises its window and advances its position's generator as `Place` says |
| Gallery.Gallery.Record | script.js:188-202 | the card's offset goes into the cache under its key, and `heights` becomes `Raised` of its old contents at the card's window |
| Gallery.Gallery.Click | script.js:224-242 | the click toggles as `Toggled` says and lays out again; the card is cached; a scroll target is produced exactly when the card opened and the scroller exists |
| Gallery.Gallery.OpenSubpage | script.js:271-286 | with no matching page nothing changes; otherwise exactly the first matching card is expanded, the gallery laid out again, the card cached, and the scroll target produced when the scroller exists |

## Left out

- DOM reads and writes are not modelled: `masonry-on`, `getComputedStyle`, the padding and `clientWidth` reads, and every `style` write (script.js:130-137, 144, 191-194, 207). `Layout` takes the available width, before `Math.max(0, _)`, as the integer `availRaw`.
- The expanded-card height, `scrollHeight` measured off-screen (script.js:159-171), is the parameter `measure(card position, width)`.
- `ResizeObserver`, the resize debounce, `requestAnimationFrame`, `setTimeout` and `window.App.openGallery` are event-loop plumbing and are left out (script.js:210-213, 247-251, 261-268). The `layout()` calls they schedule are left out too, and those calls would also advance the generators.
- `scrollTo` with `behavior: "smooth"` and the 120ms delay in `openSubpage` become the returned scroll target (script.js:237-240, 283-285).
- `openMenu` is two class toggles and is not modelled (script.js:12-18).
- Nothing is set up when `#galleryList` or its cards are absent (script.js:25, 30). The constructor requires at least one card.
- Floating point is replaced by exact integer arithmetic:
  - a draw is its uint32 numerator;
  - the swap index is `(n * (i + 1)) div 2^32`, which is exact in doubles for arrays shorter than 2^21;
  - the thresholds 0.35 and 0.15 are numerator cutoffs (`Mulberry.UnitThresholds`);
  - `Math.round` is half-up integer rounding of the exact quotient `width * h / w`. The code computes `width * (h / w)` in doubles, and when h / w is not a binary fraction an exact half can come out just below .5. Then the code rounds down where the model rounds up: width 201 at 6:13 gives 435 in the code and 436 in the model (`Packer.CollapsedHeight`). The ratios 1:1, 3:2, 4:3, 16:9, 16:10 and 21:9 are not affected; 6:13, 10:7, 20:7, 22:3 and 30:11 are.
- The JavaScript `seed` is modelled modulo 2^32, as `bv32`. This is exact while it stays a safe integer.
- Ratio.ToNumber: reads only strings of decimal digits, with the empty string as 0, and every other field as NaN, so as 1 after `|| 1`. JavaScript's `Number` also trims surrounding white space and accepts a sign, a fraction, an exponent, the 0X, 0b and 0o prefixes and `Infinity`; the model reads all of those as NaN. So "16 : 9" parses as 1:1 and "16:9 " as 16:1 in the model, but both as 16:9 in the code. A lowercase `x` is a separator, so lowercase hexadecimal never reaches `Number`.
- An absent and an empty `data-ratio` are both the empty string, because both are falsy where the code reads them.
- `data-featured` is an optional string. `AnyFeatured` tests presence (`hasAttribute`, script.js:105), and `Span.Truthy` tests truthiness (`dataset.featured`, script.js:90).
- `posCache` is keyed by document position rather than by element.
- `openSubpage` receives the page number already converted by `String(pageNumber)`.
- Shuffle.ShuffleStable: the default argument `seed = 1337` (script.js:49) is not modelled; the only call passes 2025 (script.js:123).
- Shuffle.Swapped: its contract states only the length. `Shuffle.SwappedPermutes` states that the result is a permutation.
- Packer.Raised: its contract states only the length. `Packer.RaisedAt` states the contents.
