/**
 * The time-axis and value-axis plugins written against the chart's newer
 * interface: a four-sided padding record, the plot size inside that padding,
 * and offsets and multipliers handed over by the chart.
 *
 * Text measurement and label formatting are outside the model: the measured
 * width of a sample label and the length of each formatted label are
 * parameters.
 */
module Axis {
  import opened Geometry
  import opened Scale

  datatype Side = Top | Right | Bottom | Left

  /** The sides a time axis may sit on. */
  type TimeSide = s: Side | s == Top || s == Bottom witness Bottom

  /** The sides a value axis may sit on. */
  type ValueSide = s: Side | s == Left || s == Right witness Left

  datatype Padding = Padding(top: real, right: real, bottom: real, left: real)
  {
    function Get(side: Side): real
    {
      match side
      case Top => top
      case Right => right
      case Bottom => bottom
      case Left => left
    }

    /** The padding with one side replaced and the other three kept. */
    function With(side: Side, v: real): (p: Padding)
      ensures p.Get(side) == v
      ensures forall other: Side :: other != side ==> p.Get(other) == Get(other)
    {
      match side
      case Top => this.(top := v)
      case Right => this.(right := v)
      case Bottom => this.(bottom := v)
      case Left => this.(left := v)
    }
  }

  /** The part of the chart the axis plugins read and write. */
  class Chart {
    var padding: Padding
    var width: real
    var height: real
    var computedData: seq<ComputedPoint>

    function WidthInsidePadding(): real
      reads this
    {
      width - padding.left - padding.right
    }

    function HeightInsidePadding(): real
      reads this
    {
      height - padding.top - padding.bottom
    }
  }

  const CharacterHeight: real := 18.0
  const LabelSpacing: real := 10.0
  const InitialMinMarkerGap: real := 80.0
  const LabelBreathingRoom: real := 20.0

  /** As many markers as asked for, but no more than fit across the width at the minimum gap. */
  function MarkerCount(timeMarks: int, width: real, minMarkerGap: real): (r: int)
    requires minMarkerGap != 0.0
    ensures r <= timeMarks && r <= (width / minMarkerGap).Floor
    ensures r == timeMarks || r == (width / minMarkerGap).Floor
  {
    var maxMarkers := (width / minMarkerGap).Floor;
    if timeMarks <= maxMarkers then timeMarks else maxMarkers
  }

  /**
   * Never more markers than asked for, and the ones there are fit: count
   * gaps of the minimum size take no more than the chart's width.
   */
  lemma MarkerCountFits(timeMarks: int, width: real, minMarkerGap: real)
    requires minMarkerGap > 0.0
    ensures MarkerCount(timeMarks, width, minMarkerGap) <= timeMarks
    ensures var count := MarkerCount(timeMarks, width, minMarkerGap);
      count > 0 ==> (count as real) * minMarkerGap <= width
  {
    var count := MarkerCount(timeMarks, width, minMarkerGap);
    var q := width / minMarkerGap;
    if count > 0 {
      assert (count as real) <= q;
      ProductMonotone(count as real, q, minMarkerGap, (count as real) * minMarkerGap, q * minMarkerGap);
      QuotientTimesBack(width, minMarkerGap, q);
    }
  }

  /**
   * The x position of each time marker, right to left: the first at the
   * right edge of the plot, each next one a further innerWidth / count
   * to the left. No markers for a count of 0 or less.
   */
  function MarkerPositions(width: real, right: real, innerWidth: real, count: int): (r: seq<real>)
    ensures |r| == if count > 0 then count else 0
  {
    if count <= 0 then []
    else
      var markerGap := innerWidth / count as real;
      seq(count, i => MarkerAt(width, right, markerGap, i))
  }

  /** Marker i, i gaps to the left of the plot's right edge. */
  function MarkerAt(width: real, right: real, markerGap: real, i: int): real
  {
    width - right - (i as real) * markerGap
  }

  /** The first marker sits on the right edge of the plot; with a positive inner width they strictly decrease. */
  lemma MarkerPositionsDecrease(width: real, right: real, innerWidth: real, count: int)
    requires count > 0
    ensures MarkerPositions(width, right, innerWidth, count)[0] == width - right
    ensures innerWidth > 0.0 ==> forall i, j :: 0 <= i < j < count ==>
      MarkerPositions(width, right, innerWidth, count)[j] < MarkerPositions(width, right, innerWidth, count)[i]
  {
    var r := MarkerPositions(width, right, innerWidth, count);
    var markerGap := innerWidth / count as real;
    if innerWidth > 0.0 {
      assert markerGap > 0.0;
      forall i, j | 0 <= i < j < count
        ensures r[j] < r[i]
      {
        ProductStrictlyMonotone(i as real, j as real, markerGap, (i as real) * markerGap, (j as real) * markerGap);
      }
    }
  }

  /** With the inner width measured between the left and right padding, every marker lies over the plot. */
  lemma MarkerPositionsInsidePlot(width: real, left: real, right: real, innerWidth: real, count: int)
    requires count > 0 && innerWidth == width - left - right && innerWidth > 0.0
    ensures forall i :: 0 <= i < count ==>
      left < MarkerPositions(width, right, innerWidth, count)[i] <= width - right
  {
    var r := MarkerPositions(width, right, innerWidth, count);
    var n := count as real;
    var markerGap := innerWidth / n;
    assert markerGap > 0.0;
    QuotientTimesBack(innerWidth, n, markerGap);
    forall i | 0 <= i < count
      ensures left < r[i] <= width - right
    {
      ProductMonotone(0.0, i as real, markerGap, 0.0 * markerGap, (i as real) * markerGap);
      ProductStrictlyMonotone(i as real, n, markerGap, (i as real) * markerGap, n * markerGap);
    }
  }

  /**
   * The point drawn for time marker i, if any: the computed point nearest
   * the marker's x. Nothing is drawn when there is no marker position i yet,
   * when no point is found, or, past the first marker, when the oldest
   * computed point already reaches within LabelSpacing of the marker.
   */
  function TimeTickAt(computed: seq<ComputedPoint>, positions: seq<real>, row: real, i: int): Option<ComputedPoint>
  {
    if !(0 <= i < |positions|) then None
    else
      match NearestIn(computed, Point(positions[i], row), ClosestX, |computed|)
      case None => None
      case Some(k) =>
        if i > 0 && computed[0].renderX >= positions[i] - LabelSpacing then None else Some(computed[k])
  }

  /**
   * What a drawn time tick is: the first of the computed points nearest the
   * marker by x; past the first marker the oldest point lies left of it by
   * more than LabelSpacing. The first marker is never dropped by that rule.
   */
  lemma TimeTickSkipRules(computed: seq<ComputedPoint>, positions: seq<real>, row: real, i: int)
    ensures var t := TimeTickAt(computed, positions, row, i);
      t.Some? ==>
        && 0 <= i < |positions|
        && exists k :: IsFirstNearest(computed, Point(positions[i], row), ClosestX, k) && t.value == computed[k]
    ensures var t := TimeTickAt(computed, positions, row, i);
      t.Some? && i > 0 ==> computed[0].renderX < positions[i] - LabelSpacing
    ensures var t := TimeTickAt(computed, positions, row, i);
      i == 0 < |positions| && |computed| > 0 ==> t.Some?
  {
    if 0 <= i < |positions| {
      NearestPointIsFirstMinimum(computed, Point(positions[i], row), ClosestX);
    }
  }

  /** The time-axis plugin and its closure state. */
  class TimeAxisPlugin {
    const timeMarks: int
    const side: TimeSide
    var markerPositions: seq<real>
    var calculatedTimeMarks: int
    var minMarkerGap: real

    constructor (timeMarks: int := 5, side: TimeSide := Bottom)
      ensures this.timeMarks == timeMarks && this.side == side
      ensures markerPositions == [] && calculatedTimeMarks == timeMarks && minMarkerGap == InitialMinMarkerGap
    {
      this.timeMarks := timeMarks;
      this.side := side;
      markerPositions := [];
      calculatedTimeMarks := timeMarks;
      minMarkerGap := InitialMinMarkerGap;
    }

    /** The construct hook: the axis's side gains room for one line of labels; the other sides keep theirs. */
    method Construct(chart: Chart)
      modifies chart`padding
      ensures chart.padding == old(chart.padding).With(side, old(chart.padding).Get(side) + CharacterHeight)
    {
      chart.padding := chart.padding.With(side, chart.padding.Get(side) + CharacterHeight);
    }

    /**
     * The calculate-positions hook, given the measured width of a sample
     * label: the gap becomes that width plus breathing room, the marker count
     * is capped by how many such gaps fit, and the positions are rebuilt
     * from scratch.
     */
    method CalculatePositions(chart: Chart, labelWidth: real)
      requires labelWidth >= 0.0
      modifies this`minMarkerGap, this`calculatedTimeMarks, this`markerPositions
      ensures minMarkerGap == labelWidth + LabelBreathingRoom
      ensures calculatedTimeMarks == MarkerCount(timeMarks, chart.width, minMarkerGap)
      ensures markerPositions == MarkerPositions(chart.width, chart.padding.right, chart.WidthInsidePadding(), calculatedTimeMarks)
    {
      minMarkerGap := labelWidth + LabelBreathingRoom;
      var maxMarkers := (chart.width / minMarkerGap).Floor;
      calculatedTimeMarks := if timeMarks <= maxMarkers then timeMarks else maxMarkers;
      var count := calculatedTimeMarks;
      markerPositions := [];
      if count > 0 {
        var width, rightPadding, innerWidth := chart.width, chart.padding.right, chart.WidthInsidePadding();
        var markerGap := innerWidth / count as real;
        for i := 0 to count
          invariant minMarkerGap == labelWidth + LabelBreathingRoom && calculatedTimeMarks == count
          invariant |markerPositions| == i
          invariant forall k :: 0 <= k < i ==> markerPositions[k] == MarkerAt(width, rightPadding, markerGap, k)
        {
          markerPositions := markerPositions + [MarkerAt(width, rightPadding, markerGap, i)];
        }
        ghost var expected := MarkerPositions(width, rightPadding, innerWidth, count);
        forall k | 0 <= k < count
          ensures markerPositions[k] == expected[k]
        {
        }
      }
    }

    /** The row the ticks hang from: the bottom edge of the plot for a bottom axis, its top edge otherwise. */
    function TickRow(chart: Chart): (row: real)
      reads chart
      ensures side == Bottom ==> row == chart.height - chart.padding.bottom
      ensures side == Top ==> row == chart.padding.top
    {
      if side == Bottom then chart.HeightInsidePadding() + chart.padding.top else chart.padding.top
    }

    /** The draw:after hook: for each of the calculated markers, the computed point it draws a tick for, if any. */
    method DrawAfter(chart: Chart) returns (ticks: seq<Option<ComputedPoint>>)
      ensures |ticks| == if calculatedTimeMarks > 0 then calculatedTimeMarks else 0
      ensures forall i :: 0 <= i < |ticks| ==> ticks[i] == TimeTickAt(chart.computedData, markerPositions, TickRow(chart), i)
    {
      ticks := [];
      var onBottom := side == Bottom;
      for i := 0 to if calculatedTimeMarks > 0 then calculatedTimeMarks else 0
        invariant |ticks| == i
        invariant forall k :: 0 <= k < i ==> ticks[k] == TimeTickAt(chart.computedData, markerPositions, TickRow(chart), k)
      {
        var renderY := if onBottom then chart.HeightInsidePadding() + chart.padding.top else chart.padding.top;
        var point: Option<ComputedPoint> := None;
        if i < |markerPositions| {
          var idealX := markerPositions[i];
          point := GetNearestPoint(chart.computedData, Point(idealX, renderY), ClosestX);
          if point.Some? && i > 0 && chart.computedData[0].renderX >= idealX - LabelSpacing {
            point := None;
          }
        }
        ticks := ticks + [point];
      }
    }
  }

  const CharWidth: real := 8.0
  const Spacing: real := 4.0
  const InitialPaddingAdded: real := 32.0
  const LabelFontSize: real := 12.0
  const AxisGap: real := 4.0

  /**
   * One step of the padding ratchet for a label of `characters` characters:
   * when the label needs more room than has been added so far, the side's
   * padding grows by the shortfall and the added amount becomes the need.
   * Returns the new padding and the new added amount.
   */
  function Ratchet(padding: Padding, side: Side, added: real, characters: nat): (r: (Padding, real))
    ensures r.1 >= added && r.1 >= CharWidth * characters as real
    ensures r.1 == added || r.1 == CharWidth * characters as real
    ensures r.0.Get(side) - r.1 == padding.Get(side) - added
  {
    var newPadding := CharWidth * characters as real;
    if newPadding > added then
      (padding.With(side, padding.Get(side) + (newPadding - added)), newPadding)
    else
      (padding, added)
  }

  /**
   * The ratchet never shrinks anything, touches only its own side, keeps the
   * side's padding minus the added amount fixed, ends at the larger of the
   * old amount and the need, and a repeated step changes nothing.
   */
  lemma RatchetOnlyGrows(padding: Padding, side: Side, added: real, characters: nat)
    ensures var (p, a) := Ratchet(padding, side, added, characters);
      && a >= added && p.Get(side) >= padding.Get(side)
      && (forall other: Side :: other != side ==> p.Get(other) == padding.Get(other))
      && p.Get(side) - a == padding.Get(side) - added
      && a == (if CharWidth * characters as real > added then CharWidth * characters as real else added)
      && Ratchet(p, side, a, characters) == (p, a)
  {
  }

  /** The ratchet applied to a sequence of label lengths, in order. */
  function RatchetAll(padding: Padding, side: Side, added: real, lengths: seq<nat>): (Padding, real)
  {
    if lengths == [] then (padding, added)
    else
      var (p, a) := RatchetAll(padding, side, added, lengths[..|lengths| - 1]);
      Ratchet(p, side, a, lengths[|lengths| - 1])
  }

  /**
   * After any run of labels the added amount is the largest of the starting
   * amount and every label's need, the other sides are untouched, and the
   * side's padding has grown exactly as much as the added amount; so the
   * result does not depend on the order of the labels.
   */
  lemma {:induction false} RatchetAllKeepsMaximum(padding: Padding, side: Side, added: real, lengths: seq<nat>)
    ensures var (p, a) := RatchetAll(padding, side, added, lengths);
      && a >= added
      && (forall k :: 0 <= k < |lengths| ==> a >= CharWidth * lengths[k] as real)
      && (a == added || exists k :: 0 <= k < |lengths| && a == CharWidth * lengths[k] as real)
      && (forall other: Side :: other != side ==> p.Get(other) == padding.Get(other))
      && p.Get(side) - a == padding.Get(side) - added
  {
    if lengths != [] {
      var init := lengths[..|lengths| - 1];
      RatchetAllKeepsMaximum(padding, side, added, init);
      var (p, a) := RatchetAll(padding, side, added, init);
      RatchetOnlyGrows(p, side, a, lengths[|lengths| - 1]);
      assert forall k :: 0 <= k < |init| ==> lengths[k] == init[k];
    }
  }

  /** A value-axis tick: the row it is drawn at and the data value it is labelled with. */
  datatype ValueTick = ValueTick(row: real, value: real)

  /**
   * Value tick i: placed evenly over the plot height, moved below the top
   * padding by one pixel, and labelled through the inverse value map.
   */
  function ValueTickAt(i: int, innerHeight: real, top: real, valueMarks: int, valueOffset: real, valueMultiplier: real): ValueTick
    requires valueMarks != 1 && valueMultiplier != 0.0
  {
    var value := EvenTick(i, innerHeight, valueMarks);
    ValueTick(value + top + 1.0, PixelToValue(value, innerHeight, valueOffset, valueMultiplier))
  }

  /**
   * The label of every value tick is the value the forward map draws on the
   * tick's row; the first tick sits one pixel under the top padding, the
   * last one pixel under the bottom of the plot; with a positive multiplier
   * and height the labels strictly decrease down the axis.
   */
  lemma ValueTicksInvertTheValueMap(i: int, innerHeight: real, top: real, valueMarks: int, valueOffset: real, valueMultiplier: real)
    requires valueMarks > 1 && valueMultiplier != 0.0
    ensures var t := ValueTickAt(i, innerHeight, top, valueMarks, valueOffset, valueMultiplier);
      ValueToPixel(t.value, innerHeight, valueOffset, valueMultiplier) + top + 1.0 == t.row
    ensures ValueTickAt(0, innerHeight, top, valueMarks, valueOffset, valueMultiplier).row == top + 1.0
    ensures ValueTickAt(valueMarks - 1, innerHeight, top, valueMarks, valueOffset, valueMultiplier).row == top + innerHeight + 1.0
    ensures valueMultiplier > 0.0 && innerHeight > 0.0 ==>
      ValueTickAt(i + 1, innerHeight, top, valueMarks, valueOffset, valueMultiplier).value <
      ValueTickAt(i, innerHeight, top, valueMarks, valueOffset, valueMultiplier).value
  {
    var value := EvenTick(i, innerHeight, valueMarks);
    ValueToPixelInvertsPixelToValue(value, innerHeight, valueOffset, valueMultiplier);
    EvenTickSpacing(i, innerHeight, valueMarks);
    if valueMultiplier > 0.0 && innerHeight > 0.0 {
      var step := innerHeight / ((valueMarks - 1) as real);
      assert step > 0.0;
      var next := EvenTick(i + 1, innerHeight, valueMarks);
      assert innerHeight - next < innerHeight - value;
      QuotientStrictlyMonotone(innerHeight - next, innerHeight - value, valueMultiplier);
    }
  }

  /** The label lengths the ratchet sees while ticks are drawn. */
  function LabelLengths(ticks: seq<ValueTick>, labelLength: real -> nat): seq<nat>
  {
    seq(|ticks|, i requires 0 <= i < |ticks| => labelLength(ticks[i].value))
  }

  /** The value-axis plugin and its plugin data. */
  class ValueAxisPlugin {
    const valueMarks: int
    const side: ValueSide
    var currentPaddingAdded: real

    constructor (valueMarks: int := 5, side: ValueSide := Left)
      ensures this.valueMarks == valueMarks && this.side == side
      ensures currentPaddingAdded == InitialPaddingAdded
    {
      this.valueMarks := valueMarks;
      this.side := side;
      currentPaddingAdded := CharWidth * 4.0;
    }

    /** The padding ratchet, in place on the plugin data and the chart's padding. */
    method UpdatePaddingCharacterAmount(chart: Chart, characters: nat)
      modifies this`currentPaddingAdded, chart`padding
      ensures (chart.padding, currentPaddingAdded) == Ratchet(old(chart.padding), side, old(currentPaddingAdded), characters)
    {
      var newPadding := CharWidth * characters as real;
      if newPadding > currentPaddingAdded {
        var increase := newPadding - currentPaddingAdded;
        chart.padding := chart.padding.With(side, chart.padding.Get(side) + increase);
        currentPaddingAdded := newPadding;
      }
    }

    /**
     * The construct hook: the top padding grows by one label line and a gap,
     * the axis's side by the spacing and the padding added so far.
     */
    method Construct(chart: Chart)
      modifies chart`padding
      ensures chart.padding ==
        old(chart.padding)
          .With(Top, old(chart.padding).top + LabelFontSize + AxisGap)
          .With(side, old(chart.padding).Get(side) + Spacing + currentPaddingAdded)
    {
      chart.padding := chart.padding.With(Top, chart.padding.top + LabelFontSize + AxisGap);
      chart.padding := chart.padding.With(side, chart.padding.Get(side) + Spacing + currentPaddingAdded);
    }

    /**
     * The draw:after hook, given the chart's value offset and multiplier and
     * the length of the label each data value formats to: the ticks drawn,
     * with the side padding ratcheted up for every label in turn. Only the
     * axis's own side changes, so the plot height the ticks use stays put.
     */
    method DrawAfter(chart: Chart, valueOffset: real, valueMultiplier: real, labelLength: real -> nat) returns (ticks: seq<ValueTick>)
      requires valueMarks != 1 && valueMultiplier != 0.0
      modifies this`currentPaddingAdded, chart`padding
      ensures |ticks| == if valueMarks > 0 then valueMarks else 0
      ensures chart.padding.top == old(chart.padding.top) && chart.HeightInsidePadding() == old(chart.HeightInsidePadding())
      ensures forall i :: 0 <= i < |ticks| ==>
        ticks[i] == ValueTickAt(i, chart.HeightInsidePadding(), chart.padding.top, valueMarks, valueOffset, valueMultiplier)
      ensures (chart.padding, currentPaddingAdded) ==
        RatchetAll(old(chart.padding), side, old(currentPaddingAdded), LabelLengths(ticks, labelLength))
    {
      ticks := [];
      for i := 0 to if valueMarks > 0 then valueMarks else 0
        invariant |ticks| == i
        invariant chart.padding.top == old(chart.padding.top) && chart.padding.bottom == old(chart.padding.bottom)
        invariant forall k :: 0 <= k < i ==>
          ticks[k] == ValueTickAt(k, chart.HeightInsidePadding(), chart.padding.top, valueMarks, valueOffset, valueMultiplier)
        invariant (chart.padding, currentPaddingAdded) ==
          RatchetAll(old(chart.padding), side, old(currentPaddingAdded), LabelLengths(ticks, labelLength))
      {
        var value := (i as real) * chart.HeightInsidePadding() / ((valueMarks - 1) as real);
        var yRenderPosition := value + chart.padding.top + 1.0;
        var yDataValue := (chart.HeightInsidePadding() - value) / valueMultiplier - valueOffset;
        assert ValueTick(yRenderPosition, yDataValue) ==
          ValueTickAt(i, chart.HeightInsidePadding(), chart.padding.top, valueMarks, valueOffset, valueMultiplier);
        UpdatePaddingCharacterAmount(chart, labelLength(yDataValue));
        ghost var before := ticks;
        ticks := ticks + [ValueTick(yRenderPosition, yDataValue)];
        assert LabelLengths(ticks, labelLength)[..i] == LabelLengths(before, labelLength);
      }
    }
  }
}
