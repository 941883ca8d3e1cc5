/**
  The column resolver: `decideCols` (script.js:67-79), the column width
  (script.js:140) and the width of a run of columns, which for the whole
  grid is the container width (script.js:143) and for a card is its width
  (script.js:156).
*/
module Columns {
  import opened JsMath

  const GAP: int := 18
  const MIN_COL_WIDTH: int := 200
  const MAX_COL_WIDTH: int := 300
  const MIN_COLS: int := 2
  const MAX_COLS: int := 8

  /**
    `decideCols(avail)`: as many columns of at least MIN_COL_WIDTH as fit,
    clamped to [MIN_COLS, MAX_COLS]; then the soft cap by MAX_COL_WIDTH,
    where a cap of 0 (`|| cols`) falls back to the first count.
  */
  function DecideCols(avail: int): (cols: int)
    ensures MIN_COLS <= cols <= MAX_COLS
  {
    var first := Max(MIN_COLS, Min(MAX_COLS, (avail + GAP) / (MIN_COL_WIDTH + GAP)));
    var soft := (avail + GAP) / (MAX_COL_WIDTH + GAP);
    var capped := Max(MIN_COLS, Min(first, if soft == 0 then first else soft));
    Max(MIN_COLS, Min(MAX_COLS, capped))
  }

  /** `Math.floor((avail - (cols - 1) * GAP) / cols)`. */
  function ColWidth(avail: int, cols: int): int
    requires cols >= 1
  {
    (avail - (cols - 1) * GAP) / cols
  }

  /** The width of n adjacent columns with the gaps between them. */
  function SpanWidth(n: int, colWidth: int): int {
    n * colWidth + (n - 1) * GAP
  }

  /**
    The first, MIN_COL_WIDTH step never decides the count: for every width
    the result is the number of columns of MAX_COL_WIDTH that fit, clamped
    to [MIN_COLS, MAX_COLS].
  */
  lemma DecideColsIsSoftCapClamped(avail: int)
    ensures DecideCols(avail) == Max(MIN_COLS, Min(MAX_COLS, (avail + GAP) / (MAX_COL_WIDTH + GAP)))
  {
    var first := Max(MIN_COLS, Min(MAX_COLS, (avail + GAP) / (MIN_COL_WIDTH + GAP)));
    var soft := (avail + GAP) / (MAX_COL_WIDTH + GAP);
    if soft >= MIN_COLS {
      FloorMonotoneInDivisor(avail + GAP, MIN_COL_WIDTH + GAP, MAX_COL_WIDTH + GAP);
      assert soft <= first || first == MAX_COLS;
    }
  }

  /** A larger divisor gives a smaller floor quotient of a non-negative number. */
  lemma FloorMonotoneInDivisor(x: int, d1: int, d2: int)
    requires x >= 0 && 0 < d1 <= d2
    ensures x / d2 <= x / d1
  {
    var q2 := x / d2;
    assert q2 >= 0;
    assert d1 * q2 <= d2 * q2 <= x;
    AtLeastQuotient(x, d1, q2);
  }

  /**
    The grid fits the available width and wastes less than one pixel per
    column: avail - cols < width <= avail.
  */
  lemma GridFits(avail: int, cols: int)
    requires cols >= 1
    ensures avail - cols < SpanWidth(cols, ColWidth(avail, cols)) <= avail
  {
    var x := avail - (cols - 1) * GAP;
    var q, m := x / cols, x % cols;
    assert x == cols * q + m && 0 <= m < cols;
    assert SpanWidth(cols, q) == cols * q + (cols - 1) * GAP;
  }

  /**
    When at least two columns of MAX_COL_WIDTH fit, every column is at
    least MAX_COL_WIDTH wide: the soft cap keeps columns from shrinking
    below it.
  */
  lemma WideEnoughColumns(avail: int)
    requires avail + GAP >= MIN_COLS * (MAX_COL_WIDTH + GAP)
    ensures ColWidth(avail, DecideCols(avail)) >= MAX_COL_WIDTH
  {
    DecideColsIsSoftCapClamped(avail);
    var cols := DecideCols(avail);
    var soft := (avail + GAP) / (MAX_COL_WIDTH + GAP);
    assert cols <= soft;
    assert cols * (MAX_COL_WIDTH + GAP) <= soft * (MAX_COL_WIDTH + GAP) <= avail + GAP;
    assert avail - (cols - 1) * GAP >= cols * MAX_COL_WIDTH;
    AtLeastQuotient(avail - (cols - 1) * GAP, cols, MAX_COL_WIDTH);
  }

  lemma AtLeastQuotient(x: int, d: int, k: int)
    requires d > 0 && x >= d * k
    ensures x / d >= k
  {
    var q, m := x / d, x % d;
    assert x == d * q + m && m < d;
    assert d * k < d * (q + 1);
    ProductOrder(d, k, q + 1);
  }

  /** Cancelling a positive factor keeps a strict order. */
  lemma ProductOrder(d: int, a: int, b: int)
    requires d > 0 && d * a < d * b
    ensures a < b
  {
    assert d * (b - a) > 0;
  }

  /**
    For a non-negative width the columns are never so narrow that a card's
    offset `col * (colWidth + GAP)` goes backwards: colWidth + GAP > 0.
  */
  lemma ColumnStepPositive(avail: int)
    requires avail >= 0
    ensures ColWidth(avail, DecideCols(avail)) + GAP > 0
  {
    var cols := DecideCols(avail);
    var x := avail - (cols - 1) * GAP;
    assert x >= cols * (1 - GAP);
    AtLeastQuotient(x, cols, 1 - GAP);
  }

  /** Two widths as the code computes them (a 640px area gets two columns). */
  lemma ExampleWidths()
    ensures DecideCols(640) == 2 && ColWidth(640, 2) == 311 && SpanWidth(2, 311) == 640
    ensures DecideCols(1280) == 4 && ColWidth(1280, 4) == 306 && SpanWidth(4, 306) == 1278
  {
  }

  /**
    `decideCols` gives at most three columns exactly below 1254px, where
    four 300px columns and their gaps no longer fit.
  */
  lemma NarrowBelow(avail: int)
    ensures DecideCols(avail) <= 3 <==> avail < 1254
  {
    DecideColsIsSoftCapClamped(avail);
  }

  /**
    The column width is negative exactly when the area is narrower than
    one gap: below 18px two columns get `Math.floor((avail - 18) / 2) < 0`.
  */
  lemma ColWidthNonNegative(avail: int)
    ensures ColWidth(avail, DecideCols(avail)) >= 0 <==> avail >= GAP
  {
    DecideColsIsSoftCapClamped(avail);
    if avail + GAP >= MIN_COLS * (MAX_COL_WIDTH + GAP) {
      WideEnoughColumns(avail);
    } else {
      assert DecideCols(avail) == MIN_COLS;
    }
  }
}
