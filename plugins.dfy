/**
 * The x-axis and y-axis plugins of the chart: the padding each claims when
 * the chart is built, which computed points get an x tick, and where the y
 * ticks go and which data value each is labelled with.
 *
 * The tick drawing reads the chart's `heightWithPadding`, which src/TimeLine.ts
 * does not define; it is the parameter `height` below.
 * Label formatting and the canvas calls are left to the caller.
 */
module Plugins {
  import opened Geometry
  import opened Scale
  import opened TimeLineModel

  const XAxisBottomPadding: real := 30.0
  const YAxisLeftPadding: real := 60.0

  /** The x-axis plugin's construct hook: the bottom padding becomes exactly 30, whatever it was. */
  method XAxisConstruct(chart: TimeLine)
    modifies chart`bottomPadding
    ensures chart.bottomPadding == XAxisBottomPadding
  {
    chart.bottomPadding := XAxisBottomPadding;
  }

  /** The y-axis plugin's construct hook: the left padding becomes exactly 60, whatever it was. */
  method YAxisConstruct(chart: TimeLine)
    modifies chart`leftPadding
    ensures chart.leftPadding == YAxisLeftPadding
  {
    chart.leftPadding := YAxisLeftPadding;
  }

  /** The stride between ticked points: maxPoints shared out over xMarks ticks, rounded down. */
  function XPointGap(maxPoints: real, xMarks: int): int
    requires xMarks != 0
  {
    (maxPoints / xMarks as real).Floor
  }

  /**
   * The points ticked among the first n tick slots: slot i ticks
   * computed[i * gap], and a slot whose index falls outside computed is skipped.
   */
  function XTickPoints(computed: seq<ComputedPoint>, gap: int, n: nat): (r: seq<ComputedPoint>)
    ensures |r| <= n
    ensures forall t :: t in r ==> t in computed
  {
    if n == 0 then []
    else
      var k := (n - 1) * gap;
      XTickPoints(computed, gap, n - 1) + (if 0 <= k < |computed| then [computed[k]] else [])
  }

  /**
   * The computed points the x-axis plugin draws a tick and label for, in
   * drawing order; no tick for xMarks of 0 or less.
   */
  method XAxisTickPoints(computed: seq<ComputedPoint>, maxPoints: real, xMarks: int := 5) returns (ticks: seq<ComputedPoint>)
    ensures xMarks <= 0 ==> ticks == []
    ensures xMarks > 0 ==> ticks == XTickPoints(computed, XPointGap(maxPoints, xMarks), xMarks)
  {
    ticks := [];
    if xMarks <= 0 {
      return;
    }
    var xPointGap := XPointGap(maxPoints, xMarks);
    for i := 0 to xMarks
      invariant ticks == XTickPoints(computed, xPointGap, i)
    {
      var k := i * xPointGap;
      if 0 <= k < |computed| {
        ticks := ticks + [computed[k]];
      }
    }
  }

  /**
   * For a positive maxPoints and at least one tick, the ticked indices are
   * non-negative, never decrease from one slot to the next and all stay below maxPoints.
   */
  lemma XTickIndicesBelowMaxPoints(maxPoints: real, xMarks: int, i: int)
    requires maxPoints > 0.0 && xMarks >= 1 && 0 <= i < xMarks
    ensures var gap := XPointGap(maxPoints, xMarks);
      0 <= i * gap <= (i + 1) * gap && (i * gap) as real < maxPoints
  {
    var gap := XPointGap(maxPoints, xMarks);
    var n := xMarks as real;
    var q := maxPoints / n;
    assert q > 0.0;
    assert gap >= 0;
    IntProductMonotone(i, i + 1, gap, i * gap, (i + 1) * gap);
    IntProductMonotone(i, xMarks - 1, gap, i * gap, (xMarks - 1) * gap);
    ProductMonotone(gap as real, q, n - 1.0, (gap as real) * (n - 1.0), q * (n - 1.0));
    QuotientTimesBack(maxPoints, n, q);
    assert ((xMarks - 1) * gap) as real == (gap as real) * (n - 1.0);
    assert q * (n - 1.0) == maxPoints - q;
  }

  /**
   * When the slot of the last tick still falls inside computed, no slot is
   * skipped: slot i ticks computed[i * gap] for every i.
   */
  lemma {:induction false} XTicksAllDrawn(computed: seq<ComputedPoint>, gap: int, n: nat)
    requires gap >= 0 && n > 0 && (n - 1) * gap < |computed|
    ensures var r := XTickPoints(computed, gap, n);
      |r| == n && forall i :: 0 <= i < n ==> 0 <= i * gap < |computed| && r[i] == computed[i * gap]
  {
    IntProductMonotone(n - 1, n - 1, gap, (n - 1) * gap, (n - 1) * gap);
    if n > 1 {
      IntProductMonotone(n - 2, n - 1, gap, (n - 2) * gap, (n - 1) * gap);
      XTicksAllDrawn(computed, gap, n - 1);
    }
  }

  /** A full chart, with as many computed points as maxPoints, gets all xMarks ticks. */
  lemma FullChartGetsEveryXTick(computed: seq<ComputedPoint>, maxPoints: real, xMarks: int)
    requires maxPoints > 0.0 && xMarks >= 1 && maxPoints <= |computed| as real
    ensures |XTickPoints(computed, XPointGap(maxPoints, xMarks), xMarks)| == xMarks
  {
    XTickIndicesBelowMaxPoints(maxPoints, xMarks, xMarks - 1);
    XTicksAllDrawn(computed, XPointGap(maxPoints, xMarks), xMarks);
  }

  /** A y tick: the row it is drawn at and the data value it is labelled with. */
  datatype YTick = YTick(row: real, value: real)

  /** Tick i of the y axis: evenly spaced over the height, labelled through the inverse value map. */
  function YTickAt(i: int, height: real, yMarks: int, yOffset: real, yMultiplier: real): YTick
    requires yMarks != 1 && yMultiplier != 0.0
  {
    var yValue := EvenTick(i, height, yMarks);
    YTick(yValue, PixelToValue(yValue, height, yOffset, yMultiplier))
  }

  /**
   * The y-axis plugin's ticks, top to bottom. One tick alone divides by
   * zero in the source, as does a zero multiplier.
   */
  method YAxisTicks(height: real, yOffset: real, yMultiplier: real, yMarks: int := 5) returns (ticks: seq<YTick>)
    requires yMarks != 1 && yMultiplier != 0.0
    ensures |ticks| == if yMarks < 0 then 0 else yMarks
    ensures forall i :: 0 <= i < |ticks| ==> ticks[i] == YTickAt(i, height, yMarks, yOffset, yMultiplier)
  {
    ticks := [];
    for i := 0 to if yMarks < 0 then 0 else yMarks
      invariant |ticks| == i
      invariant forall k :: 0 <= k < i ==> ticks[k] == YTickAt(k, height, yMarks, yOffset, yMultiplier)
    {
      var yValue := (i as real) * height / ((yMarks - 1) as real);
      var yDataValue := (height - yValue) / yMultiplier - yOffset;
      assert YTick(yValue, yDataValue) == YTickAt(i, height, yMarks, yOffset, yMultiplier);
      ticks := ticks + [YTick(yValue, yDataValue)];
    }
  }

  /**
   * The y labels read back the chart's own projection: with the chart's
   * offsets and multipliers and the same plot height, the top tick is
   * labelled with the largest saved y, the bottom tick with the smallest, and
   * any tick placed on a point's row is labelled with that point's y.
   */
  lemma YTickLabelsMatchData(saved: seq<Point>, maxPoints: real, pointGap: real, plotWidth: real, plotHeight: real, leftPadding: real, yMarks: int, j: int)
    requires CanCompute(saved, maxPoints, pointGap) && plotHeight > 0.0 && yMarks > 1 && 0 <= j < |saved|
    ensures var t := RenderTransform(saved, maxPoints, pointGap, plotWidth, plotHeight);
      && YTickAt(0, plotHeight, yMarks, t.yOffset, t.yMultiplier).value == MaxY(saved)
      && YTickAt(yMarks - 1, plotHeight, yMarks, t.yOffset, t.yMultiplier).value == MinY(saved)
      && PixelToValue(ProjectAll(saved, t, leftPadding, plotHeight)[j].renderY, plotHeight, t.yOffset, t.yMultiplier) == saved[j].y
  {
    var t := RenderTransform(saved, maxPoints, pointGap, plotWidth, plotHeight);
    var span := MaxY(saved) - MinY(saved);
    QuotientPositive(plotHeight, span, t.yMultiplier);
    EvenTickSpacing(0, plotHeight, yMarks);
    ValueToPixelWithinPlot(MinY(saved), MinY(saved), MaxY(saved), plotHeight);
    PixelToValueInvertsValueToPixel(MaxY(saved), plotHeight, t.yOffset, t.yMultiplier);
    PixelToValueInvertsValueToPixel(MinY(saved), plotHeight, t.yOffset, t.yMultiplier);
    PixelToValueInvertsValueToPixel(saved[j].y, plotHeight, t.yOffset, t.yMultiplier);
  }
}
