# TimeLine chart: a Dafny model

TimeLine is a canvas line chart for live time series. The caller owns an array
of `{x, y}` points. On `recompute` the chart copies that array, unless it is
paused or has fewer than two points. It then projects every copied point into
pixel space: x is spread over `maxPoints` slots of `pointGap` each, and the
first saved point is shifted right by the slots the data leaves empty, so
data spaced `pointGap` apart ends in the last slot. y is stretched so that the smallest
value sits on the bottom row of the plot and the largest on the top row.
Plugins draw axes on top of that projection:

- `xAxisPlugin` and `yAxisPlugin` (src/plugins.ts), against the chart
  interface of src/TimeLine.ts.
- `timeAxisPlugin` and `valueAxisPlugin` (src/plugins/axis.ts), against a
  newer chart interface with a four-sided padding record.

The helpers in src/utils.ts provide a distance, an inclusive
point-in-rectangle test and the nearest-point search the time axis uses.

The model has five modules:

- `Geometry` (geometry.dfy): points, the distance, the box test and the
  nearest-point search. The search is a loop, proved against a recursive
  specification of the same scan.
- `Scale` (scale.dfy): the value-to-row map used by compute, its inverse
  used by every tick label, and evenly spaced tick positions.
- `TimeLineModel` (timeline.dfy): the `TimeLine` class with its data, saved
  copy, projection, paused flag and paddings. `GetRenderOffsetsAndMultipliers`
  and `Compute` are loops proved against specification functions (`MinY`,
  `MaxY`, `RenderTransform`, `ProjectAll`); `Draw` is a loop whose result is
  stated directly over `computedData`.
- `Plugins` (plugins.dfy): the padding set by the two construct hooks, the
  computed points that get an x tick, and the y ticks with their labels.
- `Axis` (axis.dfy): the plugins' own chart record (padding, width, height,
  computed points), the time axis (marker count and positions, tick skip
  rules) and the value axis (padding ratchet, construct padding, tick labels).
  The plugins' closure state is a class per plugin.

Numbers are `real`. `WidthWithoutPadding`/`HeightWithoutPadding`
(src/TimeLine.ts:114-124) and `WidthInsidePadding`/`HeightInsidePadding` of the
newer interface are plain functions of the fields. `widthInsidePadding` and
`heightInsidePadding` belong to a chart class that src/TimeLine.ts at this
revision does not have. They are taken as the width less the left and right
padding, and the height less the top and bottom padding.

## Model

| member | source | states |
|---|---|---|
| Geometry.SquaredDistance | src/utils.ts:8-14 | the squared Euclidean distance (x gap squared plus y gap squared), never negative |
| Geometry.SquaredDistanceZeroIff | src/utils.ts:8-14 | the distance is never negative and is zero exactly when the two points coincide |
| Geometry.SquaredDistanceIsSymmetric | src/utils.ts:8-14 | the distance does not depend on the order of its arguments |
| Geometry.MethodDistance | src/utils.ts:29-44 | closest-x measures only the x gap between renderX and the query (renderY is ignored), closest-y only the y gap; every method's distance is non-negative |
| Geometry.IsPointInBox | src/utils.ts:56-65 | x <= px <= x+w and y <= py <= y+h, edges included; no point lies in a box of negative width or height |
| Geometry.BoxHoldsItsCorners | src/utils.ts:56-65 | the edges are inclusive: the box holds all four corners exactly when its width and height are non-negative |
| Geometry.NearestIn | src/utils.ts:25-51 | the index the scan holds after n points is one of those n points |
| Geometry.NearestInIsFirstNearest | src/utils.ts:25-51 | the scan holds nothing exactly when it has seen no point; otherwise it holds a point no farther than any other and strictly nearer than every earlier one |
| Geometry.FirstNearestIsUnique | src/utils.ts:47-50 | no other index meets that characterisation, so ties resolve to the earliest point |
| Geometry.GetNearestPoint | src/utils.ts:16-54 | the method defaults to pythagoras; null exactly when the computed list is empty; otherwise the point the scan specification selects |
| Geometry.NearestPointIsFirstMinimum | src/utils.ts:21-53 | the returned point is a computed point with minimal distance and the first such; a non-empty list always yields a point |
| Scale.ValueToPixel | src/TimeLine.ts:202-204 | with a positive multiplier, a value is drawn on or above the plot's bottom edge exactly when it is at least -offset |
| Scale.PixelToValue | src/plugins.ts:67-68 | with a positive multiplier, a row reads at least -offset exactly when it is on or above the bottom edge |
| Scale.ExtremesOnTheEdges | src/TimeLine.ts:155-161 | with the offset -lo and multiplier height/(hi - lo), lo is drawn on the bottom row and hi on row 0 |
| Scale.PixelToValueInvertsValueToPixel | src/plugins.ts:67-68 | the tick label of the row a value is drawn at is that value |
| Scale.ValueToPixelInvertsPixelToValue | src/plugins/axis.ts:162-164 | a tick label, drawn with the same offset and multiplier, lands on the tick's row |
| Scale.ValueToPixelWithinPlot | src/TimeLine.ts:202-204 | with offset -min and multiplier height/(max-min), values in [min, max] land in [0, height], min on the bottom row, max on row 0 |
| Scale.EvenTickSpacing | src/plugins.ts:65-66 | the first tick is at 0, the last at the full height, and neighbours are height/(marks-1) apart |
| Scale.EvenTickWithinExtent | src/plugins.ts:65-66 | for two or more marks and a non-negative height every tick lies in [0, height] |
| TimeLineModel.MinY | src/TimeLine.ts:149-154 | the smallest saved y: no saved y is below it and some saved y equals it |
| TimeLineModel.MaxY | src/TimeLine.ts:149-154 | the largest saved y: no saved y is above it and some saved y equals it |
| TimeLineModel.RenderTransform | src/TimeLine.ts:139-163 | the maxPoints slots of pointGap span exactly the plot width; the smallest saved y is drawn on the plot's bottom row and the largest on row 0 |
| TimeLineModel.Project | src/TimeLine.ts:199-205 | x and y are carried along unchanged, and with a non-zero y multiplier the row the point is drawn at reads back as its y |
| TimeLineModel.ProjectAll | src/TimeLine.ts:194-207 | one computed point per saved point, in order, with x and y copied unchanged |
| TimeLineModel.RenderYWithinPlot | src/TimeLine.ts:199-205 | every renderY lies in [0, heightWithoutPadding]; a point with the smallest y is on the bottom row, one with the largest on row 0 |
| TimeLineModel.RenderXNonDecreasing | src/TimeLine.ts:8 | data sorted by x, projected with a non-negative x multiplier, has non-decreasing renderX |
| TimeLineModel.FirstPointAfterEmptySlots | src/TimeLine.ts:142-145 | the first saved point is drawn after (maxPoints - saved count) empty slots of pointGap |
| TimeLineModel.NewestPointInLastSlot | src/TimeLine.ts:142-145 | when the saved points are exactly pointGap apart in x, the newest is drawn in the last slot, at leftPadding + (maxPoints - 1)*pointGap*xMultiplier, whatever the number of points |
| TimeLineModel.TimeLine.WidthWithoutPadding | src/TimeLine.ts:114-116 | the width less the left padding: no more than the width exactly when the left padding is not negative |
| TimeLineModel.TimeLine.HeightWithoutPadding | src/TimeLine.ts:122-124 | the height less the bottom padding: no more than the height exactly when the bottom padding is not negative |
| TimeLineModel.TimeLine.constructor | src/TimeLine.ts:33-70 | a chart over the caller's data, unpaused, no padding; with two or more points the data is saved and projected at once |
| TimeLineModel.TimeLine.Pause | src/TimeLine.ts:87-90 | the chart is paused |
| TimeLineModel.TimeLine.Resume | src/TimeLine.ts:95-99 | the chart is unpaused and recomputed: with two or more points savedData is the data and computedData its projection, otherwise both are unchanged |
| TimeLineModel.TimeLine.GetRenderOffsetsAndMultipliers | src/TimeLine.ts:130-171 | xMultiplier = widthWithoutPadding/(maxPoints*pointGap), xOffset = (maxPoints - saved count)*pointGap - first x, yOffset = -(true minimum y), yMultiplier = heightWithoutPadding/(true max - true min) |
| TimeLineModel.TimeLine.Recompute | src/TimeLine.ts:176-186 | nothing changes while paused or with fewer than two points; otherwise savedData becomes the data and computedData its projection |
| TimeLineModel.TimeLine.Compute | src/TimeLine.ts:188-209 | computedData becomes the projection of savedData under the current offsets and multipliers |
| TimeLineModel.TimeLine.Draw | src/TimeLine.ts:214-254 | nothing is drawn with fewer than two computed points; otherwise the stroked path visits every computed point's pixel position in order; no field changes |
| Plugins.XAxisConstruct | src/plugins.ts:13-15 | bottomPadding becomes exactly 30, whatever it was |
| Plugins.YAxisConstruct | src/plugins.ts:52-54 | leftPadding becomes exactly 60, whatever it was |
| Plugins.XTickPoints | src/plugins.ts:23-27 | at most one ticked point per tick slot, each one a computed point |
| Plugins.XAxisTickPoints | src/plugins.ts:9-45 | xMarks defaults to 5; no ticks for xMarks of 0 or less; otherwise slot i ticks computed[i*floor(maxPoints/xMarks)] and slots past the end are skipped |
| Plugins.XTickIndicesBelowMaxPoints | src/plugins.ts:23-26 | for maxPoints > 0 and xMarks >= 1 the ticked indices are non-negative, non-decreasing and below maxPoints |
| Plugins.XTicksAllDrawn | src/plugins.ts:25-27 | when the last slot's index is inside computedData no slot is skipped and slot i ticks computed[i*gap] |
| Plugins.FullChartGetsEveryXTick | src/plugins.ts:23-27 | a chart holding at least maxPoints computed points gets all xMarks ticks |
| Plugins.YAxisTicks | src/plugins.ts:48-83 | yMarks defaults to 5; one tick per mark, tick i at i*H/(yMarks-1), labelled (H - row)/yMultiplier - yOffset |
| Plugins.YTickLabelsMatchData | src/plugins.ts:65-68 | with the chart's own offsets and multipliers the top tick is labelled with the largest saved y, the bottom tick with the smallest, and a point's row reads back as its y |
| Axis.Padding.With | src/plugins/axis.ts:37 | one side takes the new value and the other three keep theirs |
| Axis.MarkerCount | src/plugins/axis.ts:45-46 | the smaller of the requested count and floor(width / minMarkerGap): at most each, and equal to one of them |
| Axis.MarkerCountFits | src/plugins/axis.ts:45-46 | never more markers than asked for, and the markers there are fit across the width at the minimum gap |
| Axis.MarkerPositions | src/plugins/axis.ts:48-54 | exactly max(count, 0) positions |
| Axis.MarkerPositionsDecrease | src/plugins/axis.ts:48-54 | the first marker is on the plot's right edge (width - padding.right); with a positive inner width they strictly decrease |
| Axis.MarkerPositionsInsidePlot | src/plugins/axis.ts:48-54 | with a positive inner width every marker lies in (padding.left, width - padding.right] |
| Axis.TimeTickSkipRules | src/plugins/axis.ts:64-87 | a drawn tick is the first computed point nearest the marker by x; past the first marker it is drawn only if the oldest point is more than 10 left of the marker; the first marker is never dropped by that rule |
| Axis.TimeAxisPlugin.constructor | src/plugins/axis.ts:18-33 | timeMarks defaults to 5 and the side to bottom; no positions yet, the calculated count is the requested count, the minimum gap is 80 |
| Axis.TimeAxisPlugin.Construct | src/plugins/axis.ts:36-38 | the axis's side gains exactly 18 and the other sides are unchanged |
| Axis.TimeAxisPlugin.CalculatePositions | src/plugins/axis.ts:39-55 | the gap becomes the label width plus 20, the count min(timeMarks, floor(width/gap)), and the positions are rebuilt from empty |
| Axis.TimeAxisPlugin.TickRow | src/plugins/axis.ts:66-68 | a bottom axis hangs from the bottom edge of the plot (height - padding.bottom), a top axis from padding.top |
| Axis.TimeAxisPlugin.DrawAfter | src/plugins/axis.ts:56-101 | one entry per calculated marker: the point its tick is drawn for, or none when the skip rules apply |
| Axis.Ratchet | src/plugins/axis.ts:124-136 | the new added amount is the larger of the old one and 8*characters, and the side's padding grows by exactly as much as the added amount does |
| Axis.RatchetOnlyGrows | src/plugins/axis.ts:124-136 | one ratchet step never shrinks the padding, touches only its side, grows it by exactly the growth of the added amount, ends at max(added, 8*characters), and a repeated step changes nothing |
| Axis.RatchetAllKeepsMaximum | src/plugins/axis.ts:158-171 | after any run of labels the added amount is the maximum of the start and every label's need, so the result does not depend on the order of the labels |
| Axis.ValueTicksInvertTheValueMap | src/plugins/axis.ts:158-164 | a value tick's label is drawn by the forward map on the tick's row; the first tick is 1 below padding.top, the last 1 below the plot's bottom; with positive multiplier and height labels strictly decrease downwards |
| Axis.ValueAxisPlugin.constructor | src/plugins/axis.ts:112-123 | valueMarks defaults to 5 and the side to left; the padding added so far starts at 8*4 = 32 |
| Axis.ValueAxisPlugin.UpdatePaddingCharacterAmount | src/plugins/axis.ts:124-136 | padding and added amount become one ratchet step of the old ones |
| Axis.ValueAxisPlugin.Construct | src/plugins/axis.ts:137-141 | the top padding grows by 12 + 4, the axis's side by 4 plus the added amount, and nothing else |
| Axis.ValueAxisPlugin.DrawAfter | src/plugins/axis.ts:142-193 | one tick per mark at row i*H/(marks-1) + padding.top + 1, labelled (H - value)/multiplier - offset; the plot height is unchanged; the padding and added amount are the ratchet applied to every label length in turn |

## Left out

- Canvas and DOM: creating the canvas, the resize listener, `updateCanvas`
  and device-pixel-ratio scaling, and every `ctx` call. `width` and `height`
  are plain fields. Draw returns the vertices of the path it would stroke.
- Plugin dispatch (`handlePluginHooks`) is not modelled. The hooks are
  construct, pause, resume, compute:before/after and draw:before/after, and
  the model treats them as changing nothing. The resize listener's extra compute is not modelled either.
- Geometry.SquaredDistance: does not take the square root. Distances are
  compared squared, which orders them the same way because the square root
  is monotone on non-negative numbers.
- Geometry.GetNearestPoint: the search starts with no candidate instead of
  a closest distance of Number.MAX_VALUE. The two differ only for a point
  whose distance is MAX_VALUE itself or overflows to Infinity or NaN. The
  source skips such a point, and the model takes the first point it meets.
- Floating point: numbers are exact reals. There is no rounding, no NaN and
  no Infinity.
- TimeLineModel.TimeLine.GetRenderOffsetsAndMultipliers: requires a non-empty
  savedData, maxPoints*pointGap other than 0, and distinct smallest and
  largest y. Otherwise the source divides by zero or reads a missing first
  point and yields NaN or Infinity.
- The y scan starts from the first saved y rather than from -Infinity and
  +Infinity. On non-empty data the extremes are the same.
- TimeLineModel.TimeLine.Recompute, TimeLineModel.TimeLine.Resume,
  TimeLineModel.TimeLine.constructor and TimeLineModel.TimeLine.Compute: they
  carry the same no-division-by-zero requirement whenever they compute.
- `structuredClone` is a value copy. Sequences are values in the model, so
  later changes to `data` cannot reach `savedData`.
- The chart holds the caller's array by reference (src/TimeLine.ts:35):
  callers push into it and then call recompute. The model's `data` is a
  value field that the caller reassigns, so aliasing between the caller's
  array and `data` is not captured.
- Plugins.YAxisTicks: the plot height is the chart's `heightWithPadding`.
  src/TimeLine.ts does not define it, so it is a parameter. The tick labels are
  related to the data only when that parameter equals
  `heightWithoutPadding`, which is what Plugins.YTickLabelsMatchData assumes.
- Plugins.YAxisTicks and Axis.ValueAxisPlugin.DrawAfter: require at least
  two marks or none, and a non-zero multiplier. One mark divides by zero in
  the source.
- Label formatting, `Date.now`, `toLocaleTimeString` and `measureText` are
  not modelled. The measured width of the sample label and each label's
  length are parameters. Axis.TimeAxisPlugin.CalculatePositions requires
  the measured width to be non-negative, as a text width is.
- The text placement of labels (text x and y, label height) and the ticks'
  stroke geometry are drawing only and are not modelled.
- The newer chart interface's `getRenderOffsetsAndMultipliers` result
  (`valueOffset`, `valueMultiplier`) is passed to
  Axis.ValueAxisPlugin.DrawAfter as parameters. That interface is not part
  of this model.
- Time-window trimming, boundary interpolation and always-shown markers are
  configured by the examples, but src/TimeLine.ts at this revision
  implements none of them. They are not part of this model.
