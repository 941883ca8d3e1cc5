/**
  The greedy packer inside `layout` (script.js:147-207): column heights,
  the scan for the lowest window of `span` adjacent columns, the raise of
  that window after a card is placed, and the container height.
*/
module Packer {
  import opened JsMath
  import opened Columns
  import opened Ratio

  /** `Math.max(...heights.slice(c, c + span))` for a non-empty window. */
  function WindowMax(h: seq<int>, c: nat, span: nat): (y: int)
    requires span >= 1 && c + span <= |h|
    ensures forall k :: c <= k < c + span ==> h[k] <= y
    decreases span
  {
    if span == 1 then h[c] else Max(h[c], WindowMax(h, c + 1, span - 1))
  }

  /** The top of a window is the height of one of its columns. */
  lemma {:induction false} WindowMaxAttained(h: seq<int>, c: nat, span: nat)
    requires span >= 1 && c + span <= |h|
    ensures exists k :: c <= k < c + span && h[k] == WindowMax(h, c, span)
    decreases span
  {
    if span == 1 {
      assert h[c] == WindowMax(h, c, span);
    } else {
      WindowMaxAttained(h, c + 1, span - 1);
      var k :| c + 1 <= k < c + span && h[k] == WindowMax(h, c + 1, span - 1);
      if h[c] >= h[k] {
        assert h[c] == WindowMax(h, c, span);
      } else {
        assert h[k] == WindowMax(h, c, span);
      }
    }
  }

  /** A window start with its top. */
  datatype Choice = Choice(col: nat, y: int)

  /**
    The result of the scan over the first m window starts; the loop keeps
    a start only when its window is strictly lower than the best so far.
  */
  function BestAmong(h: seq<int>, span: nat, m: nat): (b: Choice)
    requires 1 <= span && 1 <= m && m - 1 + span <= |h|
    ensures b.col < m
    decreases m
  {
    if m == 1 then Choice(0, WindowMax(h, 0, span))
    else
      var b := BestAmong(h, span, m - 1);
      var y := WindowMax(h, m - 1, span);
      if y < b.y then Choice(m - 1, y) else b
  }

  /**
    The scan finds the leftmost lowest window: its top is the window's
    maximum, no window is lower, and every window to its left is higher.
  */
  lemma {:induction false} BestAmongIsLeftmostLowest(h: seq<int>, span: nat, m: nat)
    requires 1 <= span && 1 <= m && m - 1 + span <= |h|
    ensures BestAmong(h, span, m).y == WindowMax(h, BestAmong(h, span, m).col, span)
    ensures forall c :: 0 <= c < m ==> BestAmong(h, span, m).y <= WindowMax(h, c, span)
    ensures forall c :: 0 <= c < BestAmong(h, span, m).col ==> BestAmong(h, span, m).y < WindowMax(h, c, span)
    decreases m
  {
    if m > 1 {
      BestAmongIsLeftmostLowest(h, span, m - 1);
    }
  }

  /** The scan over every window start 0 .. |h| - span. */
  function BestWindow(h: seq<int>, span: nat): (b: Choice)
    requires 1 <= span <= |h|
    ensures b.col + span <= |h|
  {
    BestAmong(h, span, |h| - span + 1)
  }

  /**
    The chosen window is the leftmost lowest one of the whole row: its top
    is its maximum, no window is lower, every window to its left is higher.
  */
  lemma BestWindowIsLeftmostLowest(h: seq<int>, span: nat)
    requires 1 <= span <= |h|
    ensures BestWindow(h, span).y == WindowMax(h, BestWindow(h, span).col, span)
    ensures forall c :: 0 <= c <= |h| - span ==> BestWindow(h, span).y <= WindowMax(h, c, span)
    ensures forall c :: 0 <= c < BestWindow(h, span).col ==> BestWindow(h, span).y < WindowMax(h, c, span)
  {
    BestAmongIsLeftmostLowest(h, span, |h| - span + 1);
  }

  /** `bestY`, which starts at `Infinity`. */
  datatype Extended = Finite(v: int) | Infinity

  predicate Below(y: int, e: Extended) {
    e.Infinity? || y < e.v
  }

  /**
    The scan loop of script.js:178-186. As span <= cols the loop runs at
    least once, so `bestY` ends finite: the top of the leftmost lowest
    window.
  */
  method ScanWindows(heights: array<int>, span: nat) returns (bestCol: nat, bestY: int)
    requires 1 <= span <= heights.Length
    ensures Choice(bestCol, bestY) == BestWindow(heights[..], span)
    ensures bestCol + span <= heights.Length
    ensures bestY == WindowMax(heights[..], bestCol, span)
    ensures forall c :: 0 <= c <= heights.Length - span ==> bestY <= WindowMax(heights[..], c, span)
    ensures forall c :: 0 <= c < bestCol ==> bestY < WindowMax(heights[..], c, span)
  {
    ghost var h := heights[..];
    bestCol := 0;
    var best: Extended := Infinity;
    var c := 0;
    while c <= heights.Length - span
      invariant 0 <= c <= heights.Length - span + 1
      invariant c == 0 ==> best == Infinity
      invariant c > 0 ==> best == Finite(BestAmong(h, span, c).y) && bestCol == BestAmong(h, span, c).col
    {
      var y := WindowMax(heights[..], c, span);
      if Below(y, best) {
        best := Finite(y);
        bestCol := c;
      }
      c := c + 1;
    }
    bestY := best.v;
    BestWindowIsLeftmostLowest(h, span);
  }

  /** The heights after the window c .. c + span - 1 is raised to v. */
  function Raised(h: seq<int>, c: nat, span: nat, v: int): (r: seq<int>)
    requires c + span <= |h|
    ensures |r| == |h|
    decreases span
  {
    if span == 0 then h else Raised(h[c := v], c + 1, span - 1, v)
  }

  /** Raising sets exactly the window's columns to v and keeps the others. */
  lemma {:induction false} RaisedAt(h: seq<int>, c: nat, span: nat, v: int)
    requires c + span <= |h|
    ensures forall k :: 0 <= k < |h| ==> Raised(h, c, span, v)[k] == (if c <= k < c + span then v else h[k])
    decreases span
  {
    if span > 0 {
      RaisedAt(h[c := v], c + 1, span - 1, v);
    }
  }

  /** The update loop of script.js:199-202. */
  method RaiseWindow(heights: array<int>, c: nat, span: nat, v: int)
    requires c + span <= heights.Length
    modifies heights
    ensures heights[..] == Raised(old(heights[..]), c, span, v)
  {
    var k := c;
    while k < c + span
      invariant c <= k <= c + span
      invariant forall i :: 0 <= i < heights.Length ==>
        heights[i] == (if c <= i < k then v else old(heights[i]))
    {
      heights[k] := v;
      k := k + 1;
    }
    RaisedAt(old(heights[..]), c, span, v);
  }

  /**
    Placing a card of non-negative height on the lowest window raises
    every column of the window strictly and lowers no column.
  */
  lemma RaiseNeverLowers(h: seq<int>, c: nat, span: nat, height: int)
    requires 1 <= span && c + span <= |h| && height >= 0
    ensures forall k :: 0 <= k < |h| ==> Raised(h, c, span, WindowMax(h, c, span) + height + GAP)[k] >= h[k]
    ensures forall k :: c <= k < c + span ==> Raised(h, c, span, WindowMax(h, c, span) + height + GAP)[k] > h[k]
  {
    RaisedAt(h, c, span, WindowMax(h, c, span) + height + GAP);
  }

  /** `Math.max(...heights, 0)`. */
  function ContainerHeight(h: seq<int>): (r: int)
    ensures r >= 0
    ensures forall k :: 0 <= k < |h| ==> h[k] <= r
    ensures r == 0 || exists k :: 0 <= k < |h| && h[k] == r
  {
    if |h| == 0 then 0
    else Max(ContainerHeight(h[..|h| - 1]), h[|h| - 1])
  }

  /**
    The height of a collapsed card, `Math.round(width * (ratio.h / ratio.w))`
    on the exact quotient width * h / w. The code divides in doubles first,
    and when h / w is not a binary fraction an exact half can come out just
    below .5: width 201 at 6:13 gives 435 in the code and 436 here.
  */
  function CollapsedHeight(width: int, ratio: Ratio): (height: int)
    requires ratio.w >= 1
    ensures ratio.w * (2 * height - 1) <= 2 * width * ratio.h < ratio.w * (2 * height + 1)
  {
    RoundDiv(width * ratio.h, ratio.w)
  }

  /** A card of non-negative width has a non-negative collapsed height. */
  lemma CollapsedHeightNonNegative(width: int, ratio: Ratio)
    requires ratio.w >= 1 && ratio.h >= 1 && width >= 0
    ensures CollapsedHeight(width, ratio) >= 0
  {
    var height := CollapsedHeight(width, ratio);
    assert 2 * width * ratio.h >= 0;
    assert ratio.w * (2 * height + 1) > 0;
  }

  /** `bestCol * (colWidth + GAP)`, the left edge of a card. */
  function Offset(col: int, colWidth: int): int {
    col * (colWidth + GAP)
  }

  /**
    A card placed on a window of the grid stays inside the grid:
    0 <= x and x + width <= container width; a card spanning every column
    (an expanded card) starts at 0 and is exactly as wide as the grid.
  */
  lemma PlacementWithinGrid(cols: int, colWidth: int, span: int, col: nat)
    requires 1 <= span && col + span <= cols && colWidth + GAP > 0
    ensures 0 <= Offset(col, colWidth)
    ensures Offset(col, colWidth) + SpanWidth(span, colWidth) <= SpanWidth(cols, colWidth)
    ensures span == cols ==> Offset(col, colWidth) == 0 && SpanWidth(span, colWidth) == SpanWidth(cols, colWidth)
  {
    var step := colWidth + GAP;
    assert Offset(col, colWidth) + SpanWidth(span, colWidth) == (col + span) * step - GAP;
    assert SpanWidth(cols, colWidth) == cols * step - GAP;
    assert (col + span) * step <= cols * step;
  }
}
