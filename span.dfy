/**
  The span rule: `colsCategory` (script.js:81-85) and `decideSpan`
  (script.js:88-102). A card shown collapsed covers one column or two.
*/
module Span {
  import opened Wrappers
  import opened JsMath
  import opened Mulberry

  datatype Category = Narrow | Medium | Wide

  /** `colsCategory(cols)`: up to 3 columns is narrow, up to 5 medium. */
  function ColsCategory(cols: int): Category {
    if cols <= 3 then Narrow
    else if cols <= 5 then Medium
    else Wide
  }

  /** The likelihoods of a double-width card in the wide and medium buckets. */
  const CHANCE_WIDE: real := 0.35
  const CHANCE_MEDIUM: real := 0.15

  /** The smallest numerators whose draws reach those likelihoods. */
  const WIDE_CUTOFF: bv32 := 1503238554
  const MEDIUM_CUTOFF: bv32 := 644245095

  /**
    The body of `decideSpan` after the featured test, on the draw r as an
    exact real, written as the source writes it.
  */
  function SpanRule(cols: int, r: real): int {
    var cat := ColsCategory(cols);
    if cat == Wide && cols >= 4 && r < CHANCE_WIDE then 2
    else if cat == Medium && cols >= 3 && r < CHANCE_MEDIUM then 2
    else 1
  }

  /**
    The same rule on the numerator n of the draw. A card widens only in
    the medium or wide bucket, and then exactly when n is below that
    bucket's cutoff; the extra `cols >= 4` and `cols >= 3` guards never
    decide anything.
  */
  function SpanForDraw(cols: int, n: bv32): (span: int)
    ensures span == 1 || span == 2
    ensures cols <= 3 ==> span == 1
    ensures span == 2 <==> (cols > 5 && n < WIDE_CUTOFF) || (3 < cols <= 5 && n < MEDIUM_CUTOFF)
  {
    var cat := ColsCategory(cols);
    if cat == Wide && cols >= 4 && n < WIDE_CUTOFF then 2
    else if cat == Medium && cols >= 3 && n < MEDIUM_CUTOFF then 2
    else 1
  }

  /** Comparing the numerator with the cutoffs is comparing the draw with the likelihoods. */
  lemma SpanForDrawIsSpanRule(cols: int, n: bv32)
    ensures SpanForDraw(cols, n) == SpanRule(cols, ToUnit(n))
  {
    UnitThresholds(n as int);
    BelowWideAsInt(n);
    BelowMediumAsInt(n);
  }

  /** The cutoffs compare on 32-bit numerators as they do on their values. */
  lemma BelowWideAsInt(n: bv32)
    ensures n < WIDE_CUTOFF <==> n as int < WIDE_CUTOFF as int
  {
  }

  lemma BelowMediumAsInt(n: bv32)
    ensures n < MEDIUM_CUTOFF <==> n as int < MEDIUM_CUTOFF as int
  {
  }

  /** `card.dataset.featured` tested for truth: present and not empty. */
  predicate Truthy(attr: Option<string>) {
    attr.Some? && attr.value != ""
  }

  /** A span and the generator state after deciding it. */
  datatype Decision = Decision(span: int, seed: bv32)

  /**
    `decideSpan(card, cols, rand)` with `rand` in state `seed`: a featured
    card gets min(2, cols) and leaves the generator alone; any other card
    draws exactly once.
  */
  function Decide(featured: Option<string>, cols: int, seed: bv32): (d: Decision)
    ensures Truthy(featured) ==> d == Decision(Min(2, cols), seed)
    ensures !Truthy(featured) ==> d.seed == Advance(seed) && d.span == SpanForDraw(cols, Mix(d.seed))
  {
    if Truthy(featured) then Decision(Min(2, cols), seed)
    else
      var s := Advance(seed);
      Decision(SpanForDraw(cols, Mix(s)), s)
  }

  /** The span is 1 or 2 and never more than the column count. */
  lemma DecidedSpanBounds(featured: Option<string>, cols: int, seed: bv32)
    requires cols >= 1
    ensures 1 <= Decide(featured, cols, seed).span <= Min(2, cols)
    ensures !Truthy(featured) && cols <= 3 ==> Decide(featured, cols, seed).span == 1
  {
  }

  /** `decideSpan` on a live generator. */
  method DecideSpan(featured: Option<string>, cols: int, rand: Mulberry32) returns (span: int)
    modifies rand
    ensures Decision(span, rand.seed) == Decide(featured, cols, old(rand.seed))
  {
    if Truthy(featured) {
      return Min(2, cols);
    }
    var n := rand.Next();
    span := SpanForDraw(cols, n);
  }
}
