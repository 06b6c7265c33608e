/**
 * The value-axis arithmetic shared by the chart and its axis plugins: the
 * forward map from a data value to a pixel row (screen rows grow downwards,
 * values grow upwards), its inverse used to label ticks, and evenly spaced
 * tick positions.
 *
 * Facts about products and quotients are proved through small lemmas that
 * name the product (`c == a * b`); the solver handles them reliably in that form.
 */
module Scale {

  /**
   * The row at which value `v` is drawn, for a plot of height `height`. With a
   * positive multiplier, exactly the values at or above -offset are drawn on or
   * above the bottom edge.
   */
  function ValueToPixel(v: real, height: real, offset: real, multiplier: real): (r: real)
    ensures multiplier > 0.0 ==> (r <= height <==> v >= -offset)
  {
    height - (v + offset) * multiplier
  }

  /**
   * The value drawn at row `px`: the inverse of ValueToPixel. With a positive
   * multiplier, exactly the rows on or above the bottom edge read at least -offset.
   */
  function PixelToValue(px: real, height: real, offset: real, multiplier: real): (r: real)
    requires multiplier != 0.0
    ensures multiplier > 0.0 ==> (r >= -offset <==> px <= height)
  {
    (height - px) / multiplier - offset
  }

  lemma ProductDividedBack(a: real, m: real, c: real)
    requires m != 0.0 && c == a * m
    ensures c / m == a
  {
  }

  lemma QuotientTimesBack(a: real, m: real, q: real)
    requires m != 0.0 && q == a / m
    ensures q * m == a
  {
  }

  /** Labelling the row where a value is drawn gives back that value. */
  lemma PixelToValueInvertsValueToPixel(v: real, height: real, offset: real, multiplier: real)
    requires multiplier != 0.0
    ensures PixelToValue(ValueToPixel(v, height, offset, multiplier), height, offset, multiplier) == v
  {
    ProductDividedBack(v + offset, multiplier, (v + offset) * multiplier);
  }

  /** Drawing the value a row is labelled with lands on that row. */
  lemma ValueToPixelInvertsPixelToValue(px: real, height: real, offset: real, multiplier: real)
    requires multiplier != 0.0
    ensures ValueToPixel(PixelToValue(px, height, offset, multiplier), height, offset, multiplier) == px
  {
    var v := PixelToValue(px, height, offset, multiplier);
    QuotientTimesBack(height - px, multiplier, v + offset);
  }

  lemma ScaledWithin(u: real, span: real, height: real, c: real)
    requires 0.0 <= u <= span && span > 0.0 && height >= 0.0
    requires c == u * (height / span)
    ensures 0.0 <= c <= height
  {
    var k := height / span;
    assert k >= 0.0;
    assert span * k == height;
    assert u * k <= span * k;
  }

  /** With the offset and multiplier derived from lo < hi, lo is drawn on the bottom row and hi on the top row. */
  lemma ExtremesOnTheEdges(lo: real, hi: real, height: real)
    requires lo < hi
    ensures ValueToPixel(lo, height, -lo, height / (hi - lo)) == height
    ensures ValueToPixel(hi, height, -lo, height / (hi - lo)) == 0.0
  {
    var k := height / (hi - lo);
    QuotientTimesBack(height, hi - lo, k);
    assert (hi + -lo) * k == height;
  }

  /**
   * With the offset and multiplier that compute derives from the extremes
   * lo < hi, every value in [lo, hi] is drawn inside [0, height], lo on the
   * bottom row and hi on the top row.
   */
  lemma ValueToPixelWithinPlot(v: real, lo: real, hi: real, height: real)
    requires lo < hi && height >= 0.0
    ensures lo <= v <= hi ==> 0.0 <= ValueToPixel(v, height, -lo, height / (hi - lo)) <= height
    ensures ValueToPixel(lo, height, -lo, height / (hi - lo)) == height
    ensures ValueToPixel(hi, height, -lo, height / (hi - lo)) == 0.0
  {
    var k := height / (hi - lo);
    if lo <= v <= hi {
      ScaledWithin(v - lo, hi - lo, height, (v + -lo) * k);
    }
    ExtremesOnTheEdges(lo, hi, height);
  }

  /**
   * The position of tick i of `marks` ticks spread evenly over [0, extent].
   * One tick alone would divide by zero, so `marks` is never 1.
   */
  function EvenTick(i: int, extent: real, marks: int): real
    requires marks != 1
  {
    (i as real) * extent / ((marks - 1) as real)
  }

  /** The first tick is at 0, the last at the full extent, and neighbours are one step apart. */
  lemma EvenTickSpacing(i: int, extent: real, marks: int)
    requires marks != 1
    ensures EvenTick(0, extent, marks) == 0.0
    ensures EvenTick(marks - 1, extent, marks) == extent
    ensures EvenTick(i + 1, extent, marks) - EvenTick(i, extent, marks) == extent / ((marks - 1) as real)
  {
    var n := (marks - 1) as real;
    ProductDividedBack(extent, n, n * extent);
    assert ((i + 1) as real) * extent == (i as real) * extent + extent;
  }

  /** For a non-negative extent, ticks 0 .. marks-1 stay within [0, extent]. */
  lemma EvenTickWithinExtent(i: int, extent: real, marks: int)
    requires marks > 1 && 0 <= i < marks && extent >= 0.0
    ensures 0.0 <= EvenTick(i, extent, marks) <= extent
  {
    var n := (marks - 1) as real;
    ProductMonotone(i as real, n, extent, (i as real) * extent, n * extent);
    ProductDividedBack(extent, n, n * extent);
    QuotientMonotone((i as real) * extent, n * extent, n);
  }

  /*
   * Facts about products and quotients, each stated through a named product
   * or quotient (`c == a * b`).
   */
  lemma ProductPositive(a: real, b: real, c: real)
    requires c == a * b && a > 0.0 && b > 0.0
    ensures c > 0.0
  {
  }

  lemma ProductNonNegative(a: real, c: real)
    requires c == a * a
    ensures c >= 0.0
  {
  }

  lemma ProductMonotone(a: real, b: real, k: real, ca: real, cb: real)
    requires a <= b && k >= 0.0 && ca == a * k && cb == b * k
    ensures ca <= cb
    ensures a >= 0.0 ==> ca >= 0.0
  {
  }

  lemma ProductStrictlyMonotone(a: real, b: real, k: real, ca: real, cb: real)
    requires a < b && k > 0.0 && ca == a * k && cb == b * k
    ensures ca < cb
  {
  }

  lemma IntProductMonotone(a: int, b: int, g: int, ca: int, cb: int)
    requires 0 <= a <= b && g >= 0 && ca == a * g && cb == b * g
    ensures 0 <= ca <= cb
  {
  }

  lemma QuotientPositive(a: real, b: real, q: real)
    requires a > 0.0 && b > 0.0 && q == a / b
    ensures q > 0.0
  {
  }

  lemma QuotientMonotone(a: real, b: real, n: real)
    requires 0.0 <= a <= b && n > 0.0
    ensures 0.0 <= a / n <= b / n
  {
  }

  lemma QuotientStrictlyMonotone(a: real, b: real, m: real)
    requires a < b && m > 0.0
    ensures a / m < b / m
  {
  }
}
