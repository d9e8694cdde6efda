# Polar wind plots: a Dafny model of the geometry and binning core

This project models the core of the WeeWX polar wind plot generator. The
generator draws four kinds of polar plot of wind data: a wind rose, a
scatter plot, a spiral and a wind-run trail. The model covers two revisions
of the plotting module:

- the current Python 3 module `bin/user/polarwindplot.py`;
- the legacy Python 2 module `bin/user/polarWindPlot.py`.

The model covers what the generator computes before anything is drawn:

- the configuration it reads: colours, line types, the timestamp location,
  the plot type and the period skip rule;
- the speed bands and the colour palette;
- the size and placement of the polar grid and of its ring labels;
- the binning of samples into rose petals and speed bands, and the choice
  of the arm that carries the ring labels;
- the quadrant counts and the quadrant choice of the scatter plot;
- the point sequence of the spiral and the wind-run reduction of the trail;
- the curve joining two points in polar coordinates;
- the colour interpolation used for age-shaded lines.

Python arithmetic is written out in module `Py`:

- `int(x)` truncates toward zero;
- the legacy module divides integers with floor division and rounds half
  away from zero (Python 2);
- the current module divides with true division and rounds half to even
  (Python 3).

Floats are modelled as exact reals. Anything the model cannot see becomes
a parameter:

- PIL colour parsing: `GetRgb`, a function from a string to an optional
  RGB triple;
- text sizes in pixels;
- the point on a circle at a given radius and angle;
- the displacement `(sin, cos)` of a leg and the length of a point;
- `atan2` in degrees;
- the configured speed unit.

Plot objects are classes. `Plot.PolarWindPlot` holds the fields the base
class `PolarWindPlot` sets. Each plot type is a class that holds its base
object as `base` and updates the base's fields through it. The legacy base
class and its rose subclass are `Legacy.LegacyPlot` and
`Legacy.LegacyRosePlot`.

Where the module's own documentation and its code disagree, the model
follows the code:

- The current `parse_color` has no special case for the word `none`. Only
  the legacy revision returns no colour for it.
- Petal width and bullseye size are accepted from 0.01 up to 1.0. A value
  below 0.01 or above 1.0 falls back to the default.
- `skipThisPlot` regenerates a long-period plot when the period is at
  least 604800 seconds. The documentation says "more than a week".
- The current scatter plot keeps `line_color = age` as the age shading.
  Every other value is parsed as a colour, and `speed` gets no special
  treatment.

## Model

| member | source | states |
|---|---|---|
| Py.Trunc | bin/user/polarwindplot.py:621 | `int()` of a float truncates toward zero: the result is the integer at or below a non-negative argument and the integer at or above a negative one, less than one away |
| Py.RoundHalfEven | bin/user/polarwindplot.py:1595 | Python 3 `round`: the result is within one half of the argument, and an exact half goes to the even neighbour |
| Py.RoundHalfAway | bin/user/polarWindPlot.py:1138 | Python 2 `round`: within one half, and an exact half goes away from zero |
| Py.Mod360 | bin/user/polarwindplot.py:1059-1067 | float `% 360` with a positive modulus lies in [0, 360) and differs from the argument by a whole number of turns |
| Py.Lower | bin/user/polarwindplot.py:304 | `str.lower` keeps the length and lowers each capital letter A-Z, leaving every other character alone |
| Py.LowerIdempotent | bin/user/polarwindplot.py:1882-1886 | lowering an already lowered option word changes nothing |
| Counting.HistogramCounts | bin/user/polarwindplot.py:1489-1495 | each entry of a count-by-key table equals the number of samples with that key |
| Counting.HistogramSum | bin/user/polarwindplot.py:1489-1495 | a count-by-key table adds up to the number of samples counted |
| Counting.ZeroTable | bin/user/polarwindplot.py:1206 | the initial bin table has the requested shape and holds only zeros |
| Counting.TallyCounts | bin/user/polarwindplot.py:1213-1233 | after tallying, each cell of the table holds the number of samples classified into it |
| Counting.TallySum | bin/user/polarwindplot.py:1213-1233 | a tally table adds up to the number of samples tallied: no sample is lost or counted twice |
| Counting.ColumnTotalsSum | bin/user/polarwindplot.py:1241-1243 | the column totals of a table add up to the table total |
| Colors.ParseColor | bin/user/polarwindplot.py:2205-2228 | a colour is found if and only if the configured value or the default parses; the configured value wins, and the default is used only when the configured value does not parse |
| Colors.ParseColorPrefersColor | bin/user/polarwindplot.py:2222-2223 | a parseable configured colour is returned whatever the default |
| Colors.DefaultPlotColorsDistinct | bin/user/polarwindplot.py:104-105 | there are seven default band colours and no two are the same |
| Colors.ValidColors | bin/user/polarwindplot.py:428-434 | the kept colours are configured colours that parse, no more of them than were configured, and every configured colour that parses is kept |
| Colors.ValidColorsSingle | bin/user/polarwindplot.py:428-434 | one colour is kept exactly when getrgb() accepts it |
| Colors.ValidColorsAppend | bin/user/polarwindplot.py:428-434 | filtering a concatenation concatenates the filtered parts, so the kept colours stay in configured order with their duplicates |
| Colors.MissingFrom | bin/user/polarwindplot.py:437-443 | the top-up candidates are default colours not already in the palette |
| Colors.TopUpClosedForm | bin/user/polarwindplot.py:437-443 | topping up leaves a palette of seven or more alone; a shorter palette is extended by the first missing defaults until it has seven |
| Colors.TopUpLength | bin/user/polarwindplot.py:437-443 | after topping up with the seven distinct defaults the palette has exactly seven colours, or the configured number if that is more |
| Colors.TopUpMembers | bin/user/polarwindplot.py:437-443 | topping up keeps the valid colours as a prefix, in order, and appends only defaults that were not already present |
| Colors.AddDefaults | bin/user/polarwindplot.py:437-443 | the top-up loop computes the top-up function |
| Colors.PaletteLength | bin/user/polarwindplot.py:428-443 | the plot palette always has at least seven colours: exactly seven unless more valid colours were configured |
| Colors.PlotColors | bin/user/polarwindplot.py:428-443 | the filter-then-top-up loops compute the palette function |
| Colors.TransChannel | bin/user/polarwindplot.py:2252-2254 | an interpolated channel lies between the start and end channels and within one half of the exact linear mix |
| Colors.MixBetween | bin/user/polarwindplot.py:2252-2254 | the exact linear mix of two channels lies between them for a proportion in [0, 1] |
| Colors.TransEnds | bin/user/polarwindplot.py:2252-2254 | proportion 0 gives the start channel and proportion 1 the end channel |
| Colors.Hex02 | bin/user/polarwindplot.py:2256 | a channel is written as exactly two hex digits |
| Colors.ColorTrans | bin/user/polarwindplot.py:2256 | an interpolated colour is a seven-character `#rrggbb` string; the legacy `color_trans` (bin/user/polarWindPlot.py:2014-2039) is the same |
| Colors.Hex02RoundTrip | bin/user/polarwindplot.py:2256 | reading back two hex digits gives the channel that was written |
| Colors.ColorTransRoundTrip | bin/user/polarwindplot.py:2256 | reading the `#rrggbb` string back gives exactly the three interpolated channels |
| SpeedBands.MaxSpeed | bin/user/polarWindPlot.py:431 | the largest speed, skipping missing samples: it is some sample's speed, at least every present speed, and exists if and only if some speed is present |
| SpeedBands.MaxSpeedPy3 | bin/user/polarwindplot.py:557 | Python 3 `max` over speeds that may be `None` returns a value only when every speed is present; otherwise it raises |
| SpeedBands.MaxSpeedPy3WithoutGaps | bin/user/polarwindplot.py:557 | with no missing speed, Python 3 `max` agrees with the gap-skipping maximum |
| SpeedBands.MaxSpeedPy3RaisesOnGap | bin/user/polarwindplot.py:557 | one missing speed makes Python 3 `max` raise where the gap-skipping maximum returns 5.0 |
| SpeedBands.MaxSpeedRange | bin/user/polarwindplot.py:560 | the speed range is a multiple of ten, at least ten, strictly above the maximum speed and at most ten above it |
| SpeedBands.SpeedList | bin/user/polarwindplot.py:578-582 | the band boundaries are the seven speed factors times the speed range |
| SpeedBands.SpeedListShape | bin/user/polarwindplot.py:475 | the boundaries start at zero, end at the speed range and strictly increase |
| SpeedBands.Band | bin/user/polarwindplot.py:1220-1233 | the speed band of a sample is one of the seven bands 0..6 |
| SpeedBands.BandMonotone | bin/user/polarwindplot.py:1220-1233 | a faster sample never falls in a lower band |
| SpeedBands.BandInterval | bin/user/polarwindplot.py:1220-1233 | a sample is in band b if and only if its speed lies in band b's half-open interval: band 0 means no speed above zero, band 6 is above the sixth boundary |
| SpeedBands.HighestExceeded | bin/user/polarwindplot.py:1114-1117 | the colour search finds the highest boundary the speed exceeds, or none when it exceeds none |
| SpeedBands.SpeedColorIsBandColor | bin/user/polarwindplot.py:1108-1121 | a positive speed is drawn in the palette colour of its band; a calm speed gets no colour |
| Grid.PlotDiameter | bin/user/polarwindplot.py:615-621 | the plot diameter is the smaller of the height-based and width-based space, rounded down to a multiple of 22 |
| Grid.OriginX | bin/user/polarwindplot.py:624 | the horizontal origin is half the width left after the legend and the east label, plus the west label |
| Grid.OriginY | bin/user/polarwindplot.py:625 | the vertical origin is half the height plus the title and north label minus the south label, plus one |
| Grid.PlotFitsVertically | bin/user/polarwindplot.py:615-625 | the plot circle lies below the border, title and north label and above the south label and border |
| Grid.LegendWidth | bin/user/polarwindplot.py:633-648 | without a legend the legend width is zero; with one it is the text width plus two bar widths plus one and a half borders, truncated |
| Grid.OuterLabelOnEdge | bin/user/polarwindplot.py:780-817 | the label of the outermost ring sits on the plot circle |
| Grid.LabelsMoveOutwards | bin/user/polarwindplot.py:817 | the label of a further ring is further from the centre |
| Grid.RingLabelSlot | bin/user/polarwindplot.py:809-822 | ring label i names ring i + 1, is at that ring's radius and is boxed if and only if it is not the outermost |
| Grid.BoxedExactlyInside | bin/user/polarwindplot.py:817-822 | the boxed labels are exactly those strictly inside the plot circle; the unboxed one is on it |
| Grid.LabelDiagonalAsWritten | bin/user/polarwindplot.py:804 | as written: the ring labels go on diagonal `int(label_dir / 4.0)` for any kind of label direction |
| Grid.LabelDiagonal | bin/user/polarwindplot.py:804 | as intended: a rose arm gives its own diagonal, and a quadrant is the diagonal itself |
| Grid.DiagonalBearing | bin/user/polarwindplot.py:804 | diagonals 0, 1, 2 and 3 point to bearings 45, 135, 225 and 315 |
| Grid.RoseArmsAgree | bin/user/polarwindplot.py:804 | for the rose's arms 2, 6, 10 and 14 both readings give the diagonals 0 to 3 |
| Grid.QuadrantsCollapseToNorthEast | bin/user/polarwindplot.py:804 | for a quadrant 0..3 the formula as written always gives the NE diagonal, while the intended one gives the quadrant's own bearing |
| Config.WithDefaults | bin/user/polarwindplot.py:497-501 | a timestamp location missing its vertical or horizontal word gains `bottom` or `right`, and nothing else is added |
| Config.TimestampLocation | bin/user/polarwindplot.py:484-503 | a list option is unreadable; the word `none`, in any case, turns the timestamp off; any other word is kept, lowered, with at most `bottom` and `right` added, and the result names both a vertical and a horizontal position |
| Config.StampOfWord | bin/user/polarwindplot.py:487-501 | one lowered word gives no timestamp exactly when it is `none`; otherwise the word is kept with at most `bottom` and `right` added |
| Config.DefaultStampLocation | bin/user/polarwindplot.py:497-501 | with no option the timestamp goes bottom right |
| Config.SingleWordStampLocation | bin/user/polarwindplot.py:484-501 | the single word `Top` gives top right |
| Config.StampHasOneOfEach | bin/user/polarwindplot.py:484-503 | every built timestamp location names exactly one vertical and one horizontal position |
| Config.TextPlacement | bin/user/polarwindplot.py:910-919 | a text goes at the top if and only if `top` is named, left if and only if `left` is named, centred if `centre` or `center` is named without `left`, and right otherwise |
| Config.ParseLineType | bin/user/polarwindplot.py:1402-1414 | the line type is off if and only if the lowered option is empty or `none`; a recognised name gives its own type; `spoke` only where the plot allows it; anything else is straight |
| Config.LineTypeRoundTrip | bin/user/polarwindplot.py:1402-1414 | writing a line type's name, in any case, reads back that type; no option reads as straight |
| Config.UnknownLineTypeIsStraight | bin/user/polarwindplot.py:1402-1414 | an unrecognised line type is drawn straight |
| Config.ScatterLineColor | bin/user/polarwindplot.py:1418-1431 | the scatter line is age-shaded unless a value other than `age` parses as a colour, and then it is that colour |
| Config.SpeedPlotColorAsWritten | bin/user/polarwindplot.py:1649-1655 | as written, with `speed` as the fallback colour: an unparseable configured colour gives no colour at all |
| Config.SpeedPlotColor | bin/user/polarwindplot.py:1649-1655 | as intended: the colour is always something; `age` where the plot accepts it, a fixed colour if and only if the value parses, and the speed banding otherwise |
| Config.MisspeltColorLosesSpeedBands | bin/user/polarwindplot.py:1649-1655 | a misspelt colour gives no colour as written, where the intended reading falls back to the speed banding |
| Config.SpeedPlotColorsAgree | bin/user/polarwindplot.py:1649-1655 | when every configured colour parses, both readings agree |
| Config.PlotTypeOf | bin/user/polarwindplot.py:300-315 | the plot type is found if and only if the lowered option, `rose` by default, names one of the four plots; otherwise the factory raises |
| Config.PlotTypeRoundTrip | bin/user/polarwindplot.py:300-315 | a plot type's name, in any case, selects that plot; no option selects the rose |
| Config.PairFields | bin/user/polarwindplot.py:255-262 | the wind gust pair is chosen if and only if the data type, or the source when there is none, is `windGust`; otherwise wind speed and direction |
| Config.LegendTitle | bin/user/polarwindplot.py:1098-1106 | the legend is titled after the wind speed or gust field, and `Legend` otherwise |
| Config.PairedFieldHasTitle | bin/user/polarwindplot.py:255-262 | every paired speed field gets its own legend title, never the fallback |
| Config.SkipThisPlot | bin/user/polarwindplot.py:355-376 | a plot with no period is skipped; a missing image, an image a day old or a period under a week is drawn; an image under an hour old with a period of a week or more, or under a day old with a period above thirty days, is skipped; and a skip happens only in those cases |
| Plot.PolarWindPlot.constructor | bin/user/polarwindplot.py:390-536 | the new plot holds the palette, the timestamp location and the configured sizes, with no legend width, no speed list and no label direction yet |
| Plot.PolarWindPlot.AddData | bin/user/polarwindplot.py:538-568 | the call raises exactly when no speed is present (an empty vector or only gaps), having stored only the speed field; otherwise the data is stored and the speed range is computed from the maximum speed |
| Plot.PolarWindPlot.SetSpeedList | bin/user/polarwindplot.py:570-582 | the speed list becomes the band boundaries of the stored speed range |
| Plot.PolarWindPlot.SetTitle | bin/user/polarwindplot.py:584-597 | the title height is the text height when there is a title, and zero otherwise |
| Plot.PolarWindPlot.SetPolarGrid | bin/user/polarwindplot.py:599-625 | the diameter and the origin are the grid functions of the stored image, title, legend and label sizes |
| Plot.PolarWindPlot.SetLegend | bin/user/polarwindplot.py:627-648 | the legend width follows the legend flag; with a legend its percentage flag and title are set, and without one they are left alone |
| Plot.PolarWindPlot.SpeedBandColor | bin/user/polarwindplot.py:1111-1117 | the colour loop returns the colour of the highest band boundary the speed exceeds |
| Plot.PolarWindPlot.GetSpeedColor | bin/user/polarwindplot.py:1108-1121 | a speed-banded line gets its band colour; a fixed or age colour is used as it is |
| Curve.ShortWay | bin/user/polarwindplot.py:1059-1067 | the curve turns one way or the other by at most 180 degrees, the shorter of the two ways round |
| Curve.StepCount | bin/user/polarwindplot.py:1071-1089 | the curve has one intermediate point per whole degree strictly inside the span |
| Curve.SegmentsForWholeSpan | bin/user/polarwindplot.py:1071-1095 | a span of s whole degrees is drawn in s one-degree segments, and at least one |
| Curve.ArcPoints | bin/user/polarwindplot.py:1076-1079 | one intermediate point is produced per step; where the points lie is stated by Curve.StepsOnShortArc and how they join by Curve.Subdivide |
| Curve.Chain | bin/user/polarwindplot.py:1069-1095 | the segments run from the start through each intermediate point in order to the end, joined end to end |
| Curve.Subdivide | bin/user/polarwindplot.py:1069-1095 | the segment loop builds the chain through the arc points of the sweep |
| Curve.JoinCurve | bin/user/polarwindplot.py:1037-1095 | `join_curve` draws the chain through one point per degree along the short way from the start angle |
| Curve.StepsOnShortArc | bin/user/polarwindplot.py:1071-1079 | the a-th intermediate point is a degrees from the start and span - a degrees before the end, along the short way |
| Curve.JoinCurveLegacy | bin/user/polarWindPlot.py:918-953 | as written in the legacy `joinCurve`: the steps are counted from the end angle when turning anticlockwise |
| Curve.LegacyStepsLeaveArc | bin/user/polarWindPlot.py:918-953 | from 10 to 350 degrees the legacy first step is at 349, 21 degrees from the start on a 20-degree arc; the corrected one is at 9 |
| Rose.CheckedPetals | bin/user/polarwindplot.py:1144-1148 | a petal count from 2 to 360 is kept and any other falls back to the default |
| Rose.CheckedProportion | bin/user/polarwindplot.py:1150-1161 | a petal width or bullseye size from 0.01 to 1.0 is kept and any other falls back to the default |
| Rose.CheckedValuesInRange | bin/user/polarwindplot.py:1144-1161 | the checked petal count is stable and the checked proportions lie in [0.01, 1.0] |
| Rose.Petal | bin/user/polarwindplot.py:1219 | every direction falls in one of the petals |
| Rose.PetalCentred | bin/user/polarwindplot.py:1219 | petal p covers the directions within half a petal width of its centre, and petal 0 also takes the last half width below north |
| Rose.Classify | bin/user/polarwindplot.py:1216-1233 | a sample lands in the calm row, band 6, if and only if its speed or direction is missing; otherwise it lands in a petal row |
| Rose.Cells | bin/user/polarwindplot.py:1213-1233 | each sample is classified on its own, inside the table |
| Rose.WindBins | bin/user/polarwindplot.py:1206-1233 | the bin table has one row per petal plus the calm row, seven bands each |
| Rose.TallyWindBins | bin/user/polarwindplot.py:1206-1233 | the tally loop computes the bin table |
| Rose.CalmRow | bin/user/polarwindplot.py:1216-1217 | every calm sample is counted in the last band of the calm row |
| Rose.SpeedTotals | bin/user/polarwindplot.py:1235-1243 | each band total is the sum of its column, and the calm count is added to band 0 |
| Rose.SpeedTotalsSum | bin/user/polarwindplot.py:1235-1243 | the band totals add up to the petal table plus the calm samples |
| Rose.RoseConservesSamples | bin/user/polarwindplot.py:1206-1243 | the petal rows plus the calm count add up to the number of samples |
| Rose.MaxRowSum | bin/user/polarwindplot.py:1246 | the largest petal total is at least every petal's total and is one of them |
| Rose.MaxRingValue | bin/user/polarwindplot.py:1246 | the outer ring value is the largest petal share rounded up to the next 5 percent step, strictly above that share |
| Rose.ArmCandidates | bin/user/polarwindplot.py:1252-1256 | the four candidate arms are petals of the rose |
| Rose.ArmLabel | bin/user/polarwindplot.py:1257 | whichever petal is chosen, the label direction is one of the arms 2, 6, 10 and 14 |
| Rose.ArmLabelsOfFewPetals | bin/user/polarwindplot.py:1252-1257 | sixteen petals give the candidates 6, 10, 2 and 14, labelled as themselves; two petals give repeated candidates that map to arms 6 and 14 |
| Rose.CandidateSums | bin/user/polarwindplot.py:1259-1261 | each candidate's sum is the total of its petal row |
| Rose.FirstClear | bin/user/polarwindplot.py:1259-1265 | the first candidate whose petal stays clear of the label ring, with no earlier candidate clear |
| Rose.FirstMinimum | bin/user/polarwindplot.py:1266-1278 | the first candidate with the smallest sum |
| Rose.LabelArm | bin/user/polarwindplot.py:1252-1279 | the chosen label direction is one of the four arms |
| Rose.ChooseLabelArm | bin/user/polarwindplot.py:1252-1279 | the label-arm loops compute the label-arm function |
| Rose.LabelArmChoice | bin/user/polarwindplot.py:1252-1279 | the label goes on the first clear candidate in preference order; if none is clear, on the first candidate with the smallest petal |
| Rose.RoseRingLabel | bin/user/polarwindplot.py:1347-1369 | rings 0 and 1 carry no label and every further ring carries one |
| Rose.OuterRoseLabel | bin/user/polarwindplot.py:1364-1367 | the outer ring reads the outer ring value in whole percent |
| Rose.RoseLabelsIncrease | bin/user/polarwindplot.py:1364-1367 | ring labels never decrease outwards |
| Rose.PetalRadiusBounds | bin/user/polarwindplot.py:1311-1312 | a petal slice starts at the bullseye, a larger running total never gives a shorter slice, and no slice passes the plot edge |
| Rose.BinSamples | bin/user/polarwindplot.py:1206-1279 | the rose's `set_plot` gives the petal rows, band totals that add up to the samples, the ring value of the fullest petal and the chosen label arm |
| Rose.PetalSlices | bin/user/polarwindplot.py:1301-1325 | each petal is drawn as six slices; their radii are stated by Rose.PetalSlicesShape |
| Rose.PetalSlicesShape | bin/user/polarwindplot.py:1301-1325 | the slices of a petal shrink from the outside in, and each lies between the bullseye and the plot edge |
| Rose.BullseyeWithin | bin/user/polarwindplot.py:1290-1292 | the bullseye radius and the petal space are not negative |
| Rose.RosePlot.constructor | bin/user/polarwindplot.py:1137-1165 | the rose keeps the checked petal count, petal width and bullseye |
| Rose.RosePlot.SetPlot | bin/user/polarwindplot.py:1199-1284 | the rose stores its petal rows, band totals adding up to the samples, the ring value, the chosen arm as label direction and `%` as ring units |
| Rose.RosePlot.PetalRadii | bin/user/polarwindplot.py:1286-1325 | a petal with samples is drawn as its six slice radii, and an empty petal is not drawn |
| Scatter.QuadrantOf | bin/user/polarwindplot.py:1495 | a direction falls in the quadrant whose ninety degrees contain it |
| Scatter.QuadrantIndex | bin/user/polarwindplot.py:1496 | `int(dir // 90)` reaches a quadrant exactly for directions in [-360, 360), counting negative indexes from the end, and is the quadrant itself on [0, 360) |
| Scatter.QuadrantCountsAsWritten | bin/user/polarwindplot.py:1489-1496 | the counting loop as written returns four counts exactly when every sample has a direction that indexes a quadrant, and raises otherwise |
| Scatter.QuadrantCountRaises | bin/user/polarwindplot.py:1496 | a sample with no direction, and a direction of 360, each make the count raise |
| Scatter.QuadrantIndexIsBearingQuadrant | bin/user/polarwindplot.py:1496 | wherever the index reaches a quadrant, it is the quadrant of the direction taken modulo 360 |
| Scatter.PresentQuadrantKeys | bin/user/polarwindplot.py:1489-1496 | every key is a quadrant, and there are no more keys than samples |
| Scatter.QuadrantCounts | bin/user/polarwindplot.py:1489-1496 | the corrected counts are four, and add up to no more than the samples |
| Scatter.QuadrantCountsCount | bin/user/polarwindplot.py:1489-1496 | each corrected count is the number of present directions in that quadrant |
| Scatter.QuadrantCountsAgree | bin/user/polarwindplot.py:1489-1496 | wherever the count as written returns, the corrected count is the same |
| Scatter.CountQuadrants | bin/user/polarwindplot.py:1489-1496 | the counting loop, skipping samples with no direction, computes the corrected counts |
| Scatter.PreferredClear | bin/user/polarwindplot.py:1497-1505 | the chosen quadrant is a preferred clear quadrant, or SE when none is clear |
| Scatter.ChooseQuadrant | bin/user/polarwindplot.py:1497-1505 | the choice loop computes the preferred clear quadrant |
| Scatter.ChosenQuadrantIsClear | bin/user/polarwindplot.py:1489-1505 | for four counts adding up to at most the samples, as the quadrant counts do, the label quadrant always holds few enough samples, and it is the first such quadrant in preference order |
| Scatter.SomeQuadrantClear | bin/user/polarwindplot.py:1497-1505 | four quadrants sharing at most the samples always leave one clear |
| Scatter.PreferredClearIsFirst | bin/user/polarwindplot.py:1497-1505 | when some preferred quadrant is clear, the first clear one in order is chosen |
| Scatter.ScatterRingLabels | bin/user/polarwindplot.py:1594-1595 | the outer ring reads the speed range and labels never decrease outwards |
| Scatter.MarkerType | bin/user/polarwindplot.py:1396-1397 | no marker is drawn if and only if none is configured or it is empty; otherwise it is kept |
| Scatter.SpeedUnit | bin/user/polarwindplot.py:114-117 | a speed unit is shown if and only if the unit is one of the four known ones |
| Scatter.ScatterPlot.constructor | bin/user/polarwindplot.py:1387-1443 | the scatter turns the legend off and keeps the marker, the line type (spokes allowed), the line colour and the oldest and newest colours |
| Scatter.ScatterPlot.SetPlot | bin/user/polarwindplot.py:1471-1508 | the scatter stores the corrected quadrant counts, the first clear preferred quadrant as label direction, and the speed unit |
| Spiral.SpiralRadiusOrdered | bin/user/polarwindplot.py:1732-1737 | the spiral radius runs from the centre at step 0 to the plot edge at the last step without decreasing |
| Spiral.RadiusIsSteps | bin/user/polarwindplot.py:1737 | the radius is the step number times one step's share of the plot radius |
| Spiral.TracePoints | bin/user/polarwindplot.py:1722-1745 | the sample loop builds the spiral trace |
| Spiral.TraceWindsOutwards | bin/user/polarwindplot.py:1722-1745 | every sample with a direction is on the trace at its own step's radius inside the plot, steps strictly increase along the trace, and radii never decrease |
| Spiral.RingSampleNearRing | bin/user/polarwindplot.py:1791-1794 | each ring is labelled with an existing sample within half a step of the ring; the centre and the edge show the samples at the centre and the edge of the spiral |
| Spiral.DirectionLabelPlacement | bin/user/polarwindplot.py:1817-1844 | the direction label goes right of a left timestamp and centred under a centred one, and bottom right with no timestamp |
| Spiral.DirectionLabelAvoidsTimestamp | bin/user/polarwindplot.py:1817-1844 | the direction label never takes the timestamp's place |
| Spiral.DirectionLabelAvoidsConfiguredTimestamp | bin/user/polarwindplot.py:1817-1844 | for every configured timestamp location the direction label goes elsewhere |
| Spiral.SpiralPlot.constructor | bin/user/polarwindplot.py:1616-1657 | the spiral keeps its centre choice, marker, line type (no spokes), line colour (age allowed) and marker colour (no age) |
| Spiral.SpiralPlot.SetPlot | bin/user/polarwindplot.py:1693-1706 | the spiral's ring labels go in the SE quadrant |
| Spiral.SpiralPlot.RenderPlot | bin/user/polarwindplot.py:1708-1770 | with neither line nor marker nothing is drawn; otherwise the drawn points are the spiral trace |
| Spiral.SpiralPlot.RingLabelSample | bin/user/polarwindplot.py:1772-1798 | the ring label shows the time of an existing sample, the one nearest the ring |
| Trail.Factor | bin/user/polarwindplot.py:1993-1996 | the wind-run factor is 1000 if and only if speeds are in metres per second, and it is positive |
| Trail.DistanceUnit | bin/user/polarwindplot.py:110-113 | a distance unit is shown if and only if the unit is one of the four known ones |
| Trail.LegAt | bin/user/polarwindplot.py:1999-2009 | sample i adds a leg if and only if it has a positive speed and a direction, and the leg belongs to sample i |
| Trail.LegsAreCountedSamples | bin/user/polarwindplot.py:1999-2015 | the legs are exactly the counting samples after the first, in order |
| Trail.Further | bin/user/polarwindplot.py:2014-2015 | the running maximum keeps the larger of the old maximum and the new radius |
| Trail.MaxRadiusIsMaximum | bin/user/polarwindplot.py:2013-2015 | the largest radius is not negative, at least the reach after every leg, and, when positive, reached after some leg |
| Trail.DryRun | bin/user/polarwindplot.py:1989-2018 | the first pass ends at the vector sum of all legs with the largest radius seen |
| Trail.DrySample | bin/user/polarwindplot.py:1999-2015 | one pass step extends the vector and the maximum by sample i |
| Trail.LegOfCountedSample | bin/user/polarwindplot.py:2004-2012 | a counting sample adds its wind run, blown downwind, as the next leg |
| Trail.NoLegOfOtherSample | bin/user/polarwindplot.py:2004-2005 | a calm sample or a sample with a gap adds no leg |
| Trail.WalkExtends | bin/user/polarwindplot.py:2011-2015 | adding a leg moves the vector by that leg and updates the maximum with the new reach |
| Trail.TrailScaleAsWritten | bin/user/polarwindplot.py:2062 | as written, the scale fails (division by zero) exactly when the largest radius is zero |
| Trail.CalmTrailCannotBeScaled | bin/user/polarwindplot.py:2062 | two calm samples give no legs, and then the scale as written fails |
| Trail.TrailScale | bin/user/polarwindplot.py:2062 | as intended: the scale maps the largest radius onto the plot radius, and is zero for a calm trail |
| Trail.TrailFitsPlot | bin/user/polarwindplot.py:2060-2092 | every scaled reach lies inside the plot |
| Trail.TrailReachesEdge | bin/user/polarwindplot.py:2060-2092 | a trail that leaves the centre touches the plot edge |
| Trail.ScaledPointsFollowLegs | bin/user/polarwindplot.py:2076-2092 | each drawn point belongs to its leg's sample, is the scaled vector sum up to that leg, and its radius is the scaled length |
| Trail.TrailPointsInsidePlot | bin/user/polarwindplot.py:2060-2092 | every drawn point is inside the plot, and one is on the edge when the trail leaves the centre |
| Trail.RenderTrail | bin/user/polarwindplot.py:2054-2120 | the drawing loop produces the scaled points of the legs |
| Trail.RenderSample | bin/user/polarwindplot.py:2076-2092 | one drawing step extends the points by sample i |
| Trail.FirstSuitable | bin/user/polarwindplot.py:2039-2048 | the label quadrant is a preferred suitable quadrant, or SE |
| Trail.ChooseLabelQuadrant | bin/user/polarwindplot.py:2030-2049 | the choice loop computes the first suitable preferred quadrant |
| Trail.TrailLabelQuadrant | bin/user/polarwindplot.py:2030-2049 | the ring labels go SW when the trail heads into SE within the clear arc of 135 degrees, and SE otherwise |
| Trail.LabelQuadrantAsWritten | bin/user/polarwindplot.py:2039-2048 | with the option unset, the loop as written chooses the first quadrant suitable for a clear arc of 30 |
| Trail.ConfiguredClearArcRaises | bin/user/polarwindplot.py:2046 | with a configured clear arc, the loop as written raises exactly when the net vector lies in SE |
| Trail.VectorBearing | bin/user/polarwindplot.py:2136-2138 | the vector bearing is a whole degree in [0, 360), equal to the rounded angle modulo a turn |
| Trail.VectorWords | bin/user/polarwindplot.py:1920 | as intended: a single word is one location word, and a list gives its words |
| Trail.SingleVectorWordIgnored | bin/user/polarwindplot.py:1920 | `top` as written becomes the letters t, o and p, so the vector text goes to the bottom; the intended reading puts it at the top |
| Trail.PlaceVectorAsWritten | bin/user/polarwindplot.py:1921-1934 | as written, with a timestamp the placement is computed; without one the code fails |
| Trail.PlaceVector | bin/user/polarwindplot.py:1921-1934 | as intended: the vector location names a vertical and a horizontal position, and keeps a configured vertical one |
| Trail.NoTimestampBreaksVectorLocation | bin/user/polarwindplot.py:1926-1932 | with the timestamp off, a location without a horizontal word, or with `left` or `right`, fails as written; the intended placement is complete |
| Trail.HorizontalPart | bin/user/polarwindplot.py:1924-1933 | the horizontal part of the vector location is one or more horizontal words |
| Trail.VectorAvoidsTimestamp | bin/user/polarwindplot.py:1920-1934 | the vector text shares the timestamp's horizontal place if and only if both are centred |
| Trail.TrailRingLabels | bin/user/polarwindplot.py:2197-2198 | the outer ring reads the largest radius rounded, and labels never decrease outwards |
| Trail.TrailPlot.constructor | bin/user/polarwindplot.py:1869-1943 | the trail keeps its marker, line type, line and marker colours, the vector colour (red by default), the end point colour and the vector location placed around the timestamp |
| Trail.TrailPlot.SetPlot | bin/user/polarwindplot.py:1979-2052 | the trail stores its wind-run factor, the distance unit, the vector and largest radius of the first pass, and the label quadrant chosen from the vector's angle |
| Trail.TrailPlot.RenderPlot | bin/user/polarwindplot.py:2054-2126 | with neither line nor marker nothing is drawn; otherwise the drawn points are the legs scaled to the plot |
| Legacy.LegacyParseColor | bin/user/polarWindPlot.py:1976-1984 | no colour for a missing value or the word `none`; a parseable colour is used; otherwise the default |
| Legacy.RefusingNone | bin/user/polarWindPlot.py:377-380 | the legacy palette accepts a colour if and only if the legacy `parse_color` parses it |
| Legacy.LegacyParseColor2 | bin/user/polarWindPlot.py:2003-2012 | the colour if it parses, else the default if that parses, else an error |
| Legacy.ParseColor2MatchesParseColor | bin/user/polarWindPlot.py:2003-2012 | `parse_color2` gives the current `parse_color`'s colour, and fails where that finds none |
| Legacy.LegacySpeedPlotColor | bin/user/polarWindPlot.py:1487-1493 | the legacy spiral colour is off if and only if a value other than `speed` (and `age` where accepted) says `none` |
| Legacy.LegacySpeedPlotColorIsIntended | bin/user/polarWindPlot.py:1487-1493 | when no colour says `none`, the legacy spiral colour is the intended one |
| Legacy.LegacyScatterLineColor | bin/user/polarWindPlot.py:1765-1779 | the legacy scatter line is speed-banded if and only if `speed` is configured, a fixed colour if and only if another value parses, and age-shaded otherwise |
| Legacy.LegacySkipThisPlotAsWritten | bin/user/polarWindPlot.py:313-314 | as written, the legacy `skipThisPlot` returns before its rules and never skips |
| Legacy.StubNeverSkips | bin/user/polarWindPlot.py:313-339 | a plot with no period, or a fresh image with a period above thirty days, is drawn as written where the rules skip it |
| Legacy.Quantised | bin/user/polarWindPlot.py:497-498 | rounding a size down to a multiple of 22 |
| Legacy.QuantisedMonotone | bin/user/polarWindPlot.py:497-498 | more room never gives a smaller diameter |
| Legacy.LegacyDiameterIsPlotDiameter | bin/user/polarWindPlot.py:497-498 | the legacy diameter is the current one: the smaller space rounded down to a multiple of 22 |
| Legacy.LegacyOrigin | bin/user/polarWindPlot.py:499-511 | a landscape image puts the plot after the border and west label, vertically centred; otherwise the plot sits on the diagonal two borders in |
| Legacy.LegacySpeedInk | bin/user/polarWindPlot.py:965-983 | a fixed or age colour is used as it is; a speed-banded line gets its band colour, and fails when no boundary is exceeded |
| Legacy.LegacySpeedInkRaisesOnCalm | bin/user/polarWindPlot.py:965-983 | with the band boundaries of a speed range, the legacy colour fails exactly on a calm speed, and otherwise is the speed's band colour |
| Legacy.LegacyPlot.constructor | bin/user/polarWindPlot.py:352-412 | the legacy plot holds its palette and sizes, with no title height, legend width or speed list yet |
| Legacy.LegacyPlot.AddData | bin/user/polarWindPlot.py:414-454 | the call raises exactly when no speed is present (`ValueError` on an empty vector, `TypeError` on `None / 10.0`), having stored only the speed field; otherwise the data is stored, and the speed range and band boundaries are computed from the maximum speed |
| Legacy.LegacyPlot.SetTitleHeight | bin/user/polarWindPlot.py:1010-1014 | the title height is the text height when there is a title, and zero otherwise |
| Legacy.LegacyPlot.SetLegend | bin/user/polarWindPlot.py:513-531 | the legacy legend always takes its width and title |
| Legacy.LegacyPlot.SetPolarGrid | bin/user/polarWindPlot.py:486-511 | the diameter and origin are the legacy grid functions of the stored sizes |
| Legacy.LegacyPlot.GetSpeedColor | bin/user/polarWindPlot.py:965-983 | the legacy colour method computes the legacy speed colour |
| Legacy.LegacyPetal | bin/user/polarWindPlot.py:1050 | the legacy petal of a direction is the current rose's petal with sixteen petals |
| Legacy.LegacyTally | bin/user/polarWindPlot.py:1036-1065 | the legacy tally gives the current bin table with sixteen petals |
| Legacy.ArmSums | bin/user/polarWindPlot.py:1088-1115 | each arm's sum is the total of its petal row |
| Legacy.LegacyLabelArm | bin/user/polarWindPlot.py:1088-1115 | the legacy label direction is one of the arms 2, 6, 10 and 14 |
| Legacy.LegacyLabelArmChoice | bin/user/polarWindPlot.py:1088-1115 | the label goes on the first clear arm of 6, 10, 2 and 14; if none is clear, on the first smallest arm of 2, 6, 10 and 14 |
| Legacy.LegacyChooseLabelArm | bin/user/polarWindPlot.py:1088-1115 | the legacy label loops compute the legacy label arm |
| Legacy.LegacyLabelArmAgreesWhenClear | bin/user/polarWindPlot.py:1088-1099 | when some arm is clear, both revisions choose the same arm |
| Legacy.TiesBrokenDifferently | bin/user/polarWindPlot.py:1100-1114 | with four equal crowded arms the legacy revision labels arm 2 and the current one arm 6 |
| Legacy.LegacyArmWithinPlot | bin/user/polarWindPlot.py:1135 | the legacy arm radius is not negative and at most ten elevenths of the plot radius |
| Legacy.LegacyPieBounds | bin/user/polarWindPlot.py:1138 | a legacy slice starts at the bullseye, grows with the running total and ends at the arm's full length |
| Legacy.LegacyPetalSlices | bin/user/polarWindPlot.py:1129-1151 | each legacy petal is drawn as six slices |
| Legacy.LegacyPetalSlicesShape | bin/user/polarWindPlot.py:1129-1151 | the outer slice is the full arm, slices shrink inwards, and each lies between the bullseye and the plot edge |
| Legacy.LegacyRoseRingLabels | bin/user/polarWindPlot.py:1191-1193 | legacy ring r reads r times the 5 percent step count of the fullest petal |
| Legacy.LegacyRosePlot.constructor | bin/user/polarWindPlot.py:989-996 | the legacy rose keeps the configured petal width, 16 by default |
| Legacy.LegacyRosePlot.SetPlot | bin/user/polarWindPlot.py:1030-1121 | the legacy rose stores sixteen petal rows, band totals adding up to the samples, the ring value, the legacy label arm and `%` as units |
| Legacy.LegacyRosePlot.PetalRadii | bin/user/polarWindPlot.py:1123-1153 | a legacy petal with samples is drawn as its six slice radii, and an empty petal is not drawn |
| Legacy.LegacySpiralLabelSampleAsWritten | bin/user/polarWindPlot.py:1547-1549 | as written, the legacy spiral label sample is an existing sample, the first for the centre and the last for the edge |
| Legacy.LegacySpiralLabelSample | bin/user/polarWindPlot.py:1547-1549 | as intended, the sample is also within half a step of the ring's share |
| Legacy.FlooredLabelSample | bin/user/polarWindPlot.py:1547-1549 | floor division makes the label sample never later than intended: with four samples, ring 3 shows sample 1 where 2 is intended |
| Legacy.LegacyLineStyleAsWritten | bin/user/polarWindPlot.py:1751-1761 | as written, the stored style keeps its case, and is a known style only after lowering |
| Legacy.DrawnLine | bin/user/polarWindPlot.py:1879-1886 | drawing compares the style case-sensitively: a line is drawn only for an exact lower-case style name |
| Legacy.LegacyLineStyle | bin/user/polarWindPlot.py:1751-1761 | as intended, the stored style is a lower-case known style that is always drawn |
| Legacy.CapitalisedStyleDrawsNoLine | bin/user/polarWindPlot.py:1751-1886 | `Radial` passes the check as written but draws no line; lowering it draws a radial line |
| Legacy.LegacyLineStyleMatchesLineType | bin/user/polarWindPlot.py:1751-1761 | the corrected legacy style draws the line type the current parser chooses |

## Left out

- Drawing: PIL images, fonts, text sizes, pens and markers. Text sizes are parameters, and the model stops at the coordinates each plot computes.
- Trigonometry, square roots and `atan2` are parameters (`PointAt`, `Displacement`, `Norm` and an `atan2` in degrees). Properties that need their values, such as the length of a trail point, are stated in terms of those parameters.
- Floating point rounding: floats are exact reals.
- Date and time formatting of the timestamp and ring labels (`strftime`): the spiral model stops at the sample whose time is shown.
- The text of the ordinal compass points and the magnitude text of the trail vector: both are formatting.
- `render_legend` in both revisions: drawing only.
- The current scatter `render_plot`: its drawing and the age colours per point. The interpolation it uses is modelled (`Colors.ColorTrans`).
- The end point marker drawing: only its colour is kept.
- The legacy trail plot and the legacy scatter and spiral drawing. The legacy revision is modelled for its base class, its rose, its colours, its scatter line style and its spiral time labels.
- The calm label at the rose's centre (bin/user/polarwindplot.py:1329 and bin/user/polarWindPlot.py:1156): text formatting.
- The legacy spiral's `label_dir = 6` (bin/user/polarWindPlot.py:1557): the legacy grid drawing that reads it is not part of this model.
- The legacy scatter accepts `line_color = speed` but its drawing has no branch for it. That drawing is not modelled.
- The legacy `set_timestamp` (bin/user/polarWindPlot.py:466-484): it sets only text, so it has no geometry to model.
- Logging, `install.py`, and the I/O of `genPlots`: the database reads, the file checks and saving images. `genPlots` is modelled only where it pairs fields and decides to skip.
- Py.Lower: lowers only ASCII capitals, not the full Unicode case mapping of `str.lower`.
- Scatter.ScatterPlot.SetPlot: an unknown speed unit raises `KeyError` in the source (bin/user/polarwindplot.py:1508, the `SPEED_LOOKUP` lookup). The model records no unit instead. The quadrant counts are the corrected Scatter.QuadrantCounts, which skip samples with no direction and take a direction modulo 360. The source raises `TypeError` or `IndexError` there instead (Scatter.QuadrantCountsAsWritten models that).
- Trail.TrailPlot.SetPlot: an unknown distance unit raises `KeyError` in the source (bin/user/polarwindplot.py:2052, the `DISTANCE_LOOKUP` lookup). The model records no unit instead. The clear arc is a number (Plot.PolarWindPlot.constructor takes it as a real), the corrected reading of the findings row for bin/user/polarwindplot.py:2046. A configured value is text in the source, and the comparison with it raises `TypeError` (Trail.LabelQuadrantAsWritten models that). Converting the text to a number is not modelled.
- Plot.PolarWindPlot.AddData: the speed range comes from the largest present speed (SpeedBands.MaxSpeed), the corrected reading of the findings row for bin/user/polarwindplot.py:557. Where some speeds are missing but others are present, the source's Python 3 `max` raises `TypeError` instead (SpeedBands.MaxSpeedPy3 models that). With no speed at all, both the model and the source raise: `max` of an empty vector raises `ValueError`.
- Spiral.SpiralPlot.constructor: the line and marker colours use the corrected Config.SpeedPlotColor. Where the configured colour does not parse, the source's `parse_color(…, 'speed')` gives no colour at all instead of speed banding (Config.SpeedPlotColorAsWritten models that).
- Trail.TrailPlot.constructor: it uses three corrected readings from the findings table. First, Trail.VectorWords treats a single location word as one word, where the source's `set()` splits it into letters (Trail.VectorWordsAsWritten). Second, Trail.PlaceVector places the vector text with the timestamp off, where the source raises `TypeError` (Trail.PlaceVectorAsWritten). Third, Config.SpeedPlotColor gives the colours, where the source gives no colour for one that does not parse (Config.SpeedPlotColorAsWritten).
- Trail.TrailPlot.RenderPlot: the scale comes from the corrected Trail.TrailScale, which draws a calm trail at the centre. At bin/user/polarwindplot.py:2062 the source divides by a zero largest radius and raises `ZeroDivisionError` (Trail.TrailScaleAsWritten models that).
- Legacy.TiesBrokenDifferently: the two revisions break ties between crowded arms in different orders. This is a behaviour difference between revisions, not a defect, so it is not listed under findings.

## Findings

| source | as written | input that shows it | evidently intended | confidence | as-written member | corrected member |
|---|---|---|---|---|---|---|
| bin/user/polarWindPlot.py:918-953 | anticlockwise steps are counted from the end angle, `start + a*dir` with start = end angle | a curve from 10 to 350 degrees: the first point is at 349 degrees, off the 20-degree arc | steps counted from the start angle along the short way | not executed | Curve.JoinCurveLegacy (Curve.LegacyStepsLeaveArc) | Curve.JoinCurve (Curve.StepsOnShortArc) |
| bin/user/polarwindplot.py:804 | ring labels on diagonal `int(label_dir / 4.0)` for every plot | a scatter, trail or spiral label quadrant 1, 2 or 3 gives diagonal 0 (NE) | a quadrant label direction is the diagonal itself | not executed | Grid.LabelDiagonalAsWritten (Grid.QuadrantsCollapseToNorthEast) | Grid.LabelDiagonal |
| bin/user/polarwindplot.py:557 | Python 3 `max` over speeds that may be `None` | speeds `[None, 5.0]`: `max` raises `TypeError` | the largest present speed, 5.0, as the Python 2 revision computes | not executed | SpeedBands.MaxSpeedPy3 (SpeedBands.MaxSpeedPy3RaisesOnGap) | SpeedBands.MaxSpeed |
| bin/user/polarwindplot.py:1649-1655 | `parse_color(line_color, 'speed')`: the fallback `speed` is not a colour | a misspelt `line_color` gives no colour, so no line colour at all | fall back to the speed banding | not executed | Config.SpeedPlotColorAsWritten (Config.MisspeltColorLosesSpeedBands) | Config.SpeedPlotColor |
| bin/user/polarwindplot.py:1920 | `set()` of the `vector_location` option | the single word `top` becomes the letters t, o and p, and the vector text goes to the bottom | a single word is one location word | not executed | Trail.VectorWordsAsWritten (Trail.SingleVectorWordIgnored) | Trail.VectorWords |
| bin/user/polarwindplot.py:1926-1932 | the vector location is intersected with the timestamp location, which is `None` when the timestamp is off | `timestamp_location = none` with `vector_location = top` fails with `TypeError` | place the vector text as if there were no timestamp | not executed | Trail.PlaceVectorAsWritten (Trail.NoTimestampBreaksVectorLocation) | Trail.PlaceVector |
| bin/user/polarwindplot.py:2062 | the scale divides the plot radius by the largest radius | two calm samples give no legs and divide by zero | a calm trail is drawn at the centre | not executed | Trail.TrailScaleAsWritten (Trail.CalmTrailCannotBeScaled) | Trail.TrailScale |
| bin/user/polarWindPlot.py:1547-1549 | `int(round((samples - 1) * n / 5))` in Python 2 rounds an already floored quotient | 4 samples, ring 3: 9/5 floors to 1, where 1.8 rounds to 2 | round the exact share | not executed | Legacy.LegacySpiralLabelSampleAsWritten (Legacy.FlooredLabelSample) | Legacy.LegacySpiralLabelSample |
| bin/user/polarWindPlot.py:1751-1761 | the style is checked after lowering but stored as configured, while drawing compares it case-sensitively (1879-1886) | `line_style = Radial` passes the check and draws no line | store the lowered style | not executed | Legacy.LegacyLineStyleAsWritten (Legacy.CapitalisedStyleDrawsNoLine) | Legacy.LegacyLineStyle |
| bin/user/polarWindPlot.py:313-314 | `skipThisPlot` returns `False` before its rules | a plot with no period, or a fresh image with a period above thirty days, is drawn again | apply the skip rules that follow | not executed | Legacy.LegacySkipThisPlotAsWritten (Legacy.StubNeverSkips) | Config.SkipThisPlot |
| bin/user/polarwindplot.py:1496 | `quadrant_count[int(_dir_vec // 90)] += 1` for every sample, with no check for a missing direction | a calm sample with no direction raises `TypeError`, and a direction of 360 raises `IndexError`, so the scatter plot is not drawn | skip samples with no direction, as render_plot does (1525), and count 360 as north | not executed | Scatter.QuadrantCountsAsWritten (Scatter.QuadrantCountRaises) | Scatter.QuadrantCounts |
| bin/user/polarwindplot.py:2046 | `label_diff >= self.ring_label_clear_arc`, with the option kept as `plot_dict.get` returns it (1937) | a configured `ring_label_clear_arc = 20` is text, and a net vector in SE raises `TypeError` | compare with the configured arc as a number | not executed | Trail.LabelQuadrantAsWritten (Trail.ConfiguredClearArcRaises) | Trail.ChooseLabelQuadrant |
