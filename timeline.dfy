/**
 * The chart itself: the caller-owned data, the copy taken on each recompute,
 * the derived offsets and multipliers, the projection of every saved point
 * into pixel space, the pause/resume switch and the read-only draw step.
 *
 * The data is assumed sorted ascending by x (earliest sample first); nothing
 * checks or enforces it.
 */
module TimeLineModel {
  import opened Geometry
  import opened Scale

  /** The per-axis offset and multiplier that map data coordinates to pixels. */
  datatype Transform = Transform(xOffset: real, xMultiplier: real, yOffset: real, yMultiplier: real)

  function Min(a: real, b: real): real { if a <= b then a else b }

  function Max(a: real, b: real): real { if a >= b then a else b }

  /** The smallest y value of a non-empty sequence of points. */
  function MinY(s: seq<Point>): (r: real)
    requires |s| > 0
    ensures forall i :: 0 <= i < |s| ==> r <= s[i].y
    ensures exists i :: 0 <= i < |s| && s[i].y == r
  {
    if |s| == 1 then s[0].y
    else
      var prefix := s[..|s| - 1];
      var m := MinY(prefix);
      assert forall i :: 0 <= i < |s| - 1 ==> s[i] == prefix[i];
      Min(m, s[|s| - 1].y)
  }

  /** The largest y value of a non-empty sequence of points. */
  function MaxY(s: seq<Point>): (r: real)
    requires |s| > 0
    ensures forall i :: 0 <= i < |s| ==> s[i].y <= r
    ensures exists i :: 0 <= i < |s| && s[i].y == r
  {
    if |s| == 1 then s[0].y
    else
      var prefix := s[..|s| - 1];
      var m := MaxY(prefix);
      assert forall i :: 0 <= i < |s| - 1 ==> s[i] == prefix[i];
      Max(m, s[|s| - 1].y)
  }

  /** Extending a prefix by one point extends its extremes by that point's y. */
  lemma ExtremesOfLongerPrefix(s: seq<Point>, i: int)
    requires 0 < i < |s|
    ensures MinY(s[..i + 1]) == Min(MinY(s[..i]), s[i].y)
    ensures MaxY(s[..i + 1]) == Max(MaxY(s[..i]), s[i].y)
  {
    assert s[..i + 1][..i] == s[..i];
  }

  /**
   * What compute needs so that it divides by nothing that is zero: a saved
   * point to anchor the x axis, a non-zero x span and a non-flat y range.
   */
  predicate CanCompute(saved: seq<Point>, maxPoints: real, pointGap: real)
  {
    |saved| > 0 && maxPoints * pointGap != 0.0 && MaxY(saved) > MinY(saved)
  }

  /**
   * The offsets and multipliers for the saved points: the x axis spans
   * maxPoints slots of pointGap each, with the first saved point shifted
   * right by the number of empty slots; the y axis stretches the saved
   * range [MinY, MaxY] over the plot height.
   */
  function RenderTransform(saved: seq<Point>, maxPoints: real, pointGap: real, plotWidth: real, plotHeight: real): (r: Transform)
    requires CanCompute(saved, maxPoints, pointGap)
    ensures r.xMultiplier * (maxPoints * pointGap) == plotWidth
    ensures ValueToPixel(MinY(saved), plotHeight, r.yOffset, r.yMultiplier) == plotHeight
    ensures ValueToPixel(MaxY(saved), plotHeight, r.yOffset, r.yMultiplier) == 0.0
  {
    QuotientTimesBack(plotWidth, maxPoints * pointGap, XMultiplier(plotWidth, maxPoints, pointGap));
    ExtremesOnTheEdges(MinY(saved), MaxY(saved), plotHeight);
    Transform(
      XOffset(saved, maxPoints, pointGap),
      XMultiplier(plotWidth, maxPoints, pointGap),
      -MinY(saved),
      plotHeight / (MaxY(saved) - MinY(saved)))
  }

  /** The plot width shared out over maxPoints slots of pointGap each. */
  function XMultiplier(plotWidth: real, maxPoints: real, pointGap: real): real
    requires maxPoints * pointGap != 0.0
  {
    plotWidth / (maxPoints * pointGap)
  }

  /** Shifts the first saved point right by the slots the saved data leaves empty. */
  function XOffset(saved: seq<Point>, maxPoints: real, pointGap: real): real
    requires |saved| > 0
  {
    (maxPoints - |saved| as real) * pointGap - saved[0].x
  }

  /**
   * One saved point projected into pixel space; x and y are carried along,
   * and the row it is drawn at reads back as its y.
   */
  function Project(p: Point, t: Transform, leftPadding: real, plotHeight: real): (r: ComputedPoint)
    ensures r.x == p.x && r.y == p.y
    ensures t.yMultiplier != 0.0 ==> PixelToValue(r.renderY, plotHeight, t.yOffset, t.yMultiplier) == p.y
  {
    var row := ValueToPixel(p.y, plotHeight, t.yOffset, t.yMultiplier);
    assert t.yMultiplier != 0.0 ==> PixelToValue(row, plotHeight, t.yOffset, t.yMultiplier) == p.y by {
      if t.yMultiplier != 0.0 {
        PixelToValueInvertsValueToPixel(p.y, plotHeight, t.yOffset, t.yMultiplier);
      }
    }
    ComputedPoint(p.x, p.y, leftPadding + (p.x + t.xOffset) * t.xMultiplier, row)
  }

  /** Every saved point projected, in order: one computed point per saved point. */
  function ProjectAll(saved: seq<Point>, t: Transform, leftPadding: real, plotHeight: real): (r: seq<ComputedPoint>)
    ensures |r| == |saved|
    ensures forall i :: 0 <= i < |saved| ==> r[i].x == saved[i].x && r[i].y == saved[i].y
  {
    seq(|saved|, i requires 0 <= i < |saved| => Project(saved[i], t, leftPadding, plotHeight))
  }

  /**
   * Every projected point lies between the top row (0) and the bottom of the
   * plot; a point with the smallest y sits on the bottom row and one with the
   * largest y on the top row.
   */
  lemma {:induction false} RenderYWithinPlot(saved: seq<Point>, maxPoints: real, pointGap: real, plotWidth: real, plotHeight: real, leftPadding: real, i: int)
    requires CanCompute(saved, maxPoints, pointGap) && plotHeight >= 0.0 && 0 <= i < |saved|
    ensures var r := ProjectAll(saved, RenderTransform(saved, maxPoints, pointGap, plotWidth, plotHeight), leftPadding, plotHeight);
      && 0.0 <= r[i].renderY <= plotHeight
      && (saved[i].y == MinY(saved) ==> r[i].renderY == plotHeight)
      && (saved[i].y == MaxY(saved) ==> r[i].renderY == 0.0)
  {
    ValueToPixelWithinPlot(saved[i].y, MinY(saved), MaxY(saved), plotHeight);
  }

  /** Data sorted by x, projected with a non-negative x multiplier, is drawn left to right. */
  lemma RenderXNonDecreasing(saved: seq<Point>, t: Transform, leftPadding: real, plotHeight: real)
    requires forall i, j :: 0 <= i < j < |saved| ==> saved[i].x <= saved[j].x
    requires t.xMultiplier >= 0.0
    ensures var r := ProjectAll(saved, t, leftPadding, plotHeight);
      forall i, j :: 0 <= i < j < |r| ==> r[i].renderX <= r[j].renderX
  {
    var r := ProjectAll(saved, t, leftPadding, plotHeight);
    forall i, j | 0 <= i < j < |r|
      ensures r[i].renderX <= r[j].renderX
    {
      var a, b := saved[i].x + t.xOffset, saved[j].x + t.xOffset;
      assert r[i].renderX == leftPadding + a * t.xMultiplier;
      assert r[j].renderX == leftPadding + b * t.xMultiplier;
      ProductMonotone(a, b, t.xMultiplier, a * t.xMultiplier, b * t.xMultiplier);
    }
  }

  /**
   * The first saved point is drawn after as many empty slots as the saved
   * data falls short of maxPoints (NewestPointInLastSlot follows this for
   * evenly spaced data).
   */
  lemma FirstPointAfterEmptySlots(saved: seq<Point>, maxPoints: real, pointGap: real, plotWidth: real, plotHeight: real, leftPadding: real)
    requires CanCompute(saved, maxPoints, pointGap)
    ensures var t := RenderTransform(saved, maxPoints, pointGap, plotWidth, plotHeight);
      ProjectAll(saved, t, leftPadding, plotHeight)[0].renderX ==
      leftPadding + (maxPoints - |saved| as real) * pointGap * t.xMultiplier
  {
    var t := RenderTransform(saved, maxPoints, pointGap, plotWidth, plotHeight);
    assert saved[0].x + t.xOffset == (maxPoints - |saved| as real) * pointGap;
  }

  /**
   * When the saved points are exactly pointGap apart in x, the newest one is
   * drawn in the last of the maxPoints slots, whatever the number of points
   * (for the x offset RenderTransform computes).
   */
  lemma NewestPointInLastSlot(saved: seq<Point>, maxPoints: real, pointGap: real, t: Transform, leftPadding: real, plotHeight: real)
    requires |saved| > 0 && t.xOffset == XOffset(saved, maxPoints, pointGap)
    requires forall i :: 0 <= i < |saved| ==> saved[i].x == saved[0].x + (i as real) * pointGap
    ensures ProjectAll(saved, t, leftPadding, plotHeight)[|saved| - 1].renderX ==
      leftPadding + (maxPoints - 1.0) * pointGap * t.xMultiplier
  {
    var n := |saved| as real;
    var last := saved[|saved| - 1];
    assert last.x == saved[0].x + (n - 1.0) * pointGap;
    assert (n - 1.0) * pointGap + (maxPoints - n) * pointGap == (maxPoints - 1.0) * pointGap;
    assert last.x + t.xOffset == (maxPoints - 1.0) * pointGap;
  }

  class TimeLine {
    /** The caller's data; the chart only reads it, on recompute. */
    var data: seq<Point>
    /** The copy of `data` taken by the last recompute that went through. */
    var savedData: seq<Point>
    /** The pixel-space projection of `savedData`. */
    var computedData: seq<ComputedPoint>
    var maxPoints: real
    var pointGap: real
    var paused: bool
    var leftPadding: real
    var bottomPadding: real
    /** The drawing surface's size in CSS pixels, as the render target reports it. */
    var width: real
    var height: real

    /** The plot width right of the left padding; within the width exactly when that padding is not negative. */
    function WidthWithoutPadding(): (r: real)
      reads this
      ensures r <= width <==> leftPadding >= 0.0
    {
      width - leftPadding
    }

    /** The plot height above the bottom padding; within the height exactly when that padding is not negative. */
    function HeightWithoutPadding(): (r: real)
      reads this
      ensures r <= height <==> bottomPadding >= 0.0
    {
      height - bottomPadding
    }

    /** The projection compute would produce from the given saved points under the current configuration. */
    ghost function Projection(saved: seq<Point>): seq<ComputedPoint>
      reads this
      requires CanCompute(saved, maxPoints, pointGap)
    {
      ProjectAll(saved, RenderTransform(saved, maxPoints, pointGap, WidthWithoutPadding(), HeightWithoutPadding()),
                 leftPadding, HeightWithoutPadding())
    }

    /**
     * A chart over the caller's data, not paused and without padding. It
     * recomputes once straight away, so with two or more points the data is
     * saved and projected.
     */
    constructor (data: seq<Point>, maxPoints: real, pointGap: real, width: real, height: real)
      requires |data| >= 2 ==> CanCompute(data, maxPoints, pointGap)
      ensures this.data == data && this.maxPoints == maxPoints && this.pointGap == pointGap
      ensures this.width == width && this.height == height
      ensures !paused && leftPadding == 0.0 && bottomPadding == 0.0
      ensures |data| < 2 ==> savedData == [] && computedData == []
      ensures |data| >= 2 ==> savedData == data && computedData == Projection(data)
    {
      this.data := data;
      this.maxPoints := maxPoints;
      this.pointGap := pointGap;
      this.width := width;
      this.height := height;
      savedData := [];
      computedData := [];
      paused := false;
      leftPadding := 0.0;
      bottomPadding := 0.0;
      new;
      Recompute();
    }

    /** Stops recompute from taking in new data until resume. */
    method Pause()
      modifies this`paused
      ensures paused
    {
      paused := true;
    }

    /** Lets recompute take in data again and recomputes straight away. */
    method Resume()
      requires |data| >= 2 ==> CanCompute(data, maxPoints, pointGap)
      modifies this`paused, this`savedData, this`computedData
      ensures !paused
      ensures |data| < 2 ==> savedData == old(savedData) && computedData == old(computedData)
      ensures |data| >= 2 ==> savedData == data && computedData == Projection(data)
    {
      paused := false;
      Recompute();
    }

    /**
     * Offsets and multipliers for the saved data. The y extremes are found by
     * one scan over the saved points; the source starts that scan from
     * -Infinity and +Infinity, which on non-empty data gives the same result
     * as starting from the first point's y.
     */
    method GetRenderOffsetsAndMultipliers() returns (t: Transform)
      requires CanCompute(savedData, maxPoints, pointGap)
      ensures t == RenderTransform(savedData, maxPoints, pointGap, WidthWithoutPadding(), HeightWithoutPadding())
      ensures t.yOffset == -MinY(savedData)
      ensures t.yMultiplier == HeightWithoutPadding() / (MaxY(savedData) - MinY(savedData))
    {
      var saved := savedData;
      var xMultiplier := XMultiplier(WidthWithoutPadding(), maxPoints, pointGap);
      var xOffset := XOffset(saved, maxPoints, pointGap);

      var biggestYValue := saved[0].y;
      var smallestYValue := saved[0].y;
      for i := 0 to |saved|
        invariant i == 0 ==> biggestYValue == smallestYValue == saved[0].y
        invariant i > 0 ==> biggestYValue == MaxY(saved[..i]) && smallestYValue == MinY(saved[..i])
      {
        var point := saved[i];
        if i > 0 {
          ExtremesOfLongerPrefix(saved, i);
        }
        if point.y > biggestYValue {
          biggestYValue := point.y;
        }
        if point.y < smallestYValue {
          smallestYValue := point.y;
        }
      }
      assert saved[..|saved|] == saved;
      assert biggestYValue == MaxY(saved) && smallestYValue == MinY(saved);

      var maxYGap := biggestYValue - smallestYValue;
      var yMultiplier := HeightWithoutPadding() / maxYGap;
      var yOffset := -smallestYValue;
      t := Transform(xOffset, xMultiplier, yOffset, yMultiplier);
    }

    /**
     * Takes a copy of the caller's data and projects it, unless the chart is
     * paused or there are fewer than two points; then nothing changes.
     */
    method Recompute()
      requires !paused && |data| >= 2 ==> CanCompute(data, maxPoints, pointGap)
      modifies this`savedData, this`computedData
      ensures paused || |data| < 2 ==> savedData == old(savedData) && computedData == old(computedData)
      ensures !paused && |data| >= 2 ==> savedData == data && computedData == Projection(data)
    {
      if paused {
        return;
      }
      if |data| < 2 {
        return;
      }
      savedData := data;
      Compute();
    }

    /** Rebuilds computedData from savedData: one projected point per saved point, in order. */
    method Compute()
      requires CanCompute(savedData, maxPoints, pointGap)
      modifies this`computedData
      ensures computedData == Projection(savedData)
    {
      var t := GetRenderOffsetsAndMultipliers();
      computedData := [];
      for i := 0 to |savedData|
        invariant |computedData| == i
        invariant forall k :: 0 <= k < i ==> computedData[k] == Project(savedData[k], t, leftPadding, HeightWithoutPadding())
      {
        var computedPoint := Project(savedData[i], t, leftPadding, HeightWithoutPadding());
        computedData := computedData + [computedPoint];
      }
      ghost var expected := ProjectAll(savedData, t, leftPadding, HeightWithoutPadding());
      forall k | 0 <= k < |savedData|
        ensures computedData[k] == expected[k]
      {
      }
    }

    /**
     * The polyline draw strokes: nothing with fewer than two computed points,
     * otherwise every computed point's pixel position in order. Draw changes
     * no field of the chart.
     */
    method Draw() returns (path: seq<(real, real)>)
      ensures |computedData| < 2 ==> path == []
      ensures |computedData| >= 2 ==> |path| == |computedData|
      ensures |computedData| >= 2 ==>
        forall i :: 0 <= i < |path| ==> path[i] == (computedData[i].renderX, computedData[i].renderY)
    {
      if |computedData| < 2 {
        return [];
      }
      path := [(computedData[0].renderX, computedData[0].renderY)];
      var rest := computedData[1..];
      for k := 0 to |rest|
        invariant |path| == k + 1
        invariant forall i :: 0 <= i < |path| ==> path[i] == (computedData[i].renderX, computedData[i].renderY)
      {
        path := path + [(rest[k].renderX, rest[k].renderY)];
      }
    }
  }
}
