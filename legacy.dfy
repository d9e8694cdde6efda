/** The legacy revision (bin/user/polarWindPlot.py, Python 2): its own
    colour parsing with an explicit 'none', the recursive parse_color2, the
    testing stub in skipThisPlot, the speed list built in add_data, the
    separately quantised plot diameter, get_speed_color without a calm
    colour, the fixed sixteen-petal rose, the spiral time-label samples and
    the scatter line style. Integer / is floor division and round() goes
    half away from zero. */
module Legacy {
  import opened Py
  import opened Counting
  import opened Colors
  import opened SpeedBands
  import opened Grid
  import opened Config
  import opened Plot
  import Rose

  // ---------------------------------------------------------------------
  // Colours

  /** What the legacy parse_color hands back: a parsed triple, or a
      default passed through as it was given (for instance the style word
      'speed'). */
  datatype Paint = Parsed(rgb: Rgb) | Given(style: string)

  /** The word 'none' in any mix of case, which the legacy parse_color
      reads as no colour. */
  predicate SaysNone(s: string)
  {
    Lower(s) == "none"
  }

  /** parse_color(color, default): None for a missing value or 'none' in
      any case; otherwise the parsed colour, or, when getrgb() fails, the
      default exactly as given, without parsing it. */
  function LegacyParseColor(getrgb: GetRgb, color: Option<string>, default: Option<Paint>): (r: Option<Paint>)
    ensures color.None? || SaysNone(color.value) ==> r.None?
    ensures color.Some? && !SaysNone(color.value) && getrgb(color.value).Some? ==>
      r == Some(Parsed(getrgb(color.value).value))
    ensures color.Some? && !SaysNone(color.value) && getrgb(color.value).None? ==> r == default
  {
    if color.Some? && !SaysNone(color.value) then
      match getrgb(color.value)
      case Some(rgb) => Some(Parsed(rgb))
      case None => default
    else None
  }

  /** The colour check of the legacy palette loop: a colour is kept when
      parse_color(colour, None) is not None, that is when it is not 'none'
      and getrgb() accepts it. */
  function RefusingNone(getrgb: GetRgb): (g: GetRgb)
    ensures forall c :: g(c).Some? <==> LegacyParseColor(getrgb, Some(c), None).Some?
  {
    c => if SaysNone(c) then None else getrgb(c)
  }

  /** parse_color2(color, default): getrgb(color), else parse_color2 of the
      default with no default of its own. A colour that no getrgb() call
      accepts ends in parse_color2(None), which calls itself on None until
      Python 2's recursion limit raises RuntimeError ("maximum recursion
      depth exceeded"); that raise is the Raises outcome here. */
  function LegacyParseColor2(getrgb: GetRgb, color: Option<string>, default: Option<string>): (r: Outcome<Rgb>)
    ensures Parses(getrgb, color) ==> r == Returns(getrgb(color.value).value)
    ensures !Parses(getrgb, color) && Parses(getrgb, default) ==> r == Returns(getrgb(default.value).value)
    ensures !Parses(getrgb, color) && !Parses(getrgb, default) ==> r.Raises?
    decreases if default.Some? then 2 else if color.Some? then 1 else 0
  {
    if Parses(getrgb, color) then Returns(getrgb(color.value).value)
    else if color.None? && default.None? then Raises
    else LegacyParseColor2(getrgb, default, None)
  }

  /** The legacy parse_color2 returns exactly where the current
      parse_color finds a colour, and the same one; where the current
      revision gives None the legacy one raises. */
  lemma ParseColor2MatchesParseColor(getrgb: GetRgb, color: Option<string>, default: Option<string>)
    ensures LegacyParseColor2(getrgb, color, default) ==
      match ParseColor(getrgb, color, default)
      case None => Raises
      case Some(rgb) => Returns(rgb)
  {
  }

  /** line_color of the legacy spiral (acceptsAge) and marker_color: the
      styles are kept, anything else goes through parse_color(value,
      'speed'), so a colour that does not parse keeps the speed bands and
      'none' in any case gives no colour. */
  function LegacySpeedPlotColor(getrgb: GetRgb, option: Option<string>, acceptsAge: bool): (c: LineColor)
    ensures c.NoColor? <==> option.Some? && option.value != "speed" &&
                            !(acceptsAge && option.value == "age") && SaysNone(option.value)
  {
    var raw := if option.Some? then option.value else "speed";
    if raw == "speed" then BySpeed
    else if acceptsAge && raw == "age" then ByAge
    else
      match LegacyParseColor(getrgb, Some(raw), Some(Given("speed")))
      case None => NoColor
      case Some(Parsed(rgb)) => Fixed(rgb)
      case Some(Given(_)) => BySpeed
  }

  /** Apart from 'none', the legacy colour options read exactly as the
      intended reading of the current ones: a colour that does not parse
      falls back to the speed bands. */
  lemma LegacySpeedPlotColorIsIntended(getrgb: GetRgb, option: Option<string>, acceptsAge: bool)
    requires option.Some? && option.value != "speed" && !(acceptsAge && option.value == "age") ==>
      !SaysNone(option.value)
    ensures LegacySpeedPlotColor(getrgb, option, acceptsAge) == SpeedPlotColor(getrgb, option, acceptsAge)
  {
  }

  /** line_color of the legacy scatter plot (default 'age'): 'age' and
      'speed' are kept, a colour that parse_color(value, None) accepts is
      used, and anything else, 'none' included, becomes 'age'. */
  function LegacyScatterLineColor(getrgb: GetRgb, option: Option<string>): (c: LineColor)
    ensures c.ByAge? || c.BySpeed? || c.Fixed?
    ensures c.BySpeed? <==> option == Some("speed")
    ensures c.Fixed? <==> option.Some? && option.value != "age" && option.value != "speed" &&
                          !SaysNone(option.value) && getrgb(option.value).Some?
    ensures c.Fixed? ==> getrgb(option.value) == Some(c.rgb)
  {
    var raw := if option.Some? then option.value else "age";
    if raw == "age" then ByAge
    else if raw == "speed" then BySpeed
    else
      match LegacyParseColor(getrgb, Some(raw), None)
      case Some(Parsed(rgb)) => Fixed(rgb)
      case _ => ByAge
  }

  // ---------------------------------------------------------------------
  // Skipping fresh plots

  /** skipThisPlot as written: the testing stub at its head returns False
      before any rule is looked at, so every plot is generated on every
      report cycle. */
  function LegacySkipThisPlotAsWritten(period: Option<int>, imageExists: bool, age: real): (skip: bool)
    ensures !skip
  {
    false
  }

  /** With the stub in place a plot without a period is drawn, and a long
      plot is redrawn while it is fresh; the rules after the stub (the
      same as the current revision's) skip both. */
  lemma StubNeverSkips(imageExists: bool, age: real)
    ensures !LegacySkipThisPlotAsWritten(None, imageExists, age) && SkipThisPlot(None, imageExists, age)
    ensures !LegacySkipThisPlotAsWritten(Some(2592001), true, 0.0) && SkipThisPlot(Some(2592001), true, 0.0)
  {
  }

  // ---------------------------------------------------------------------
  // The plot grid

  /** int(x / 22.0) * 22 for an integer x: x cut towards zero to a
      multiple of 22. */
  function Quantised(x: int): (q: int)
    ensures q % 22 == 0
    ensures x >= 0 ==> 0 <= q <= x < q + 22
    ensures x < 0 ==> q - 22 < x <= q <= 0
  {
    TruncOfQuotient(x, 22);
    assert x as real / 22.0 == x as real / 22 as real;
    Trunc(x as real / 22.0) * 22
  }

  /** Cutting to a multiple of 22 keeps an order. */
  lemma QuantisedMonotone(a: int, b: int)
    requires a <= b
    ensures Quantised(a) <= Quantised(b)
  {
  }

  /** The height the legacy plot may use: the image less two borders and
      half the title height, halved by integer division. */
  function LegacyHeightAvailable(imageHeight: int, border: int, titleHeight: int): int
  {
    imageHeight - 2 * border - titleHeight / 2
  }

  /** max_plot_dia: the smaller of the height and the width, each cut to a
      multiple of 22 on its own. */
  function LegacyDiameter(heightAvailable: int, widthAvailable: int): (d: int)
  {
    var h, w := Quantised(heightAvailable), Quantised(widthAvailable);
    if h <= w then h else w
  }

  /** Cutting the two sizes separately and taking the smaller gives the
      same diameter as cutting the smaller one, which the current revision
      does: a multiple of 22 within 22 of the smaller size. */
  lemma LegacyDiameterIsPlotDiameter(heightAvailable: int, widthAvailable: int)
    ensures LegacyDiameter(heightAvailable, widthAvailable) == PlotDiameter(heightAvailable, widthAvailable)
    ensures var d := LegacyDiameter(heightAvailable, widthAvailable);
      var m := if heightAvailable <= widthAvailable then heightAvailable else widthAvailable;
      d % 22 == 0 && (m >= 0 ==> 0 <= d <= m < d + 22)
  {
    var m := if heightAvailable <= widthAvailable then heightAvailable else widthAvailable;
    if heightAvailable <= widthAvailable {
      QuantisedMonotone(heightAvailable, widthAvailable);
    } else {
      QuantisedMonotone(widthAvailable, heightAvailable);
    }
    TruncOfQuotient(m, 22);
    assert m as real / 22.0 == m as real / 22 as real;
  }

  /** The plot centre: in a landscape image the plot sits one border, the
      width of "W" and two pixels from the left edge and half way down;
      otherwise it sits two borders from the top left corner. */
  function LegacyOrigin(imageWidth: int, imageHeight: int, border: int, westWidth: int, dia: int): (o: (int, int))
    ensures imageWidth > imageHeight ==>
      o.0 - dia / 2 == border + westWidth + 2 && 0 <= imageHeight - 2 * o.1 <= 1
    ensures imageWidth <= imageHeight ==> o.0 == o.1 && o.0 - dia / 2 == 2 * border
  {
    if imageWidth > imageHeight then (border + westWidth + 2 + dia / 2, imageHeight / 2)
    else (2 * border + dia / 2, 2 * border + dia / 2)
  }

  // ---------------------------------------------------------------------
  // Speed colours

  /** get_speed_color: for a speed-banded source the colour one above the
      highest of the first six boundaries the speed exceeds; when it
      exceeds none of them result is never bound and the return raises
      UnboundLocalError. Any other source is returned as it is. */
  function LegacySpeedInk(source: LineColor, speed: real, sl: seq<real>, colors: seq<string>): (r: Outcome<Ink>)
    requires |sl| == 7 && |colors| >= 7
    ensures !source.BySpeed? ==> r == Returns(Constant(source))
    ensures source.BySpeed? ==> (r.Raises? <==> SpeedColor(speed, sl, colors).None?)
    ensures r.Returns? ==> r.value == if source.BySpeed? then BandColor(SpeedColor(speed, sl, colors))
                                      else Constant(source)
  {
    if !source.BySpeed? then Returns(Constant(source))
    else
      match SpeedColor(speed, sl, colors)
      case None => Raises
      case Some(c) => Returns(BandColor(Some(c)))
  }

  /** With the speed list of a positive top of scale, the legacy call
      raises exactly for a calm (non-positive) speed, and otherwise gives
      the colour of the speed's rose band, as the current revision does. */
  lemma LegacySpeedInkRaisesOnCalm(maxSpeedRange: int, speed: real, colors: seq<string>)
    requires maxSpeedRange > 0 && |colors| >= 7
    ensures var sl := SpeedList(maxSpeedRange);
      var r := LegacySpeedInk(BySpeed, speed, sl, colors);
      (r.Raises? <==> speed <= 0.0) &&
      (speed > 0.0 ==> r == Returns(BandColor(Some(colors[Band(speed, sl)]))))
  {
    SpeedListShape(maxSpeedRange);
    SpeedColorIsBandColor(speed, SpeedList(maxSpeedRange), colors);
  }

  class LegacyPlot {
    var imageWidth: int
    var imageHeight: int
    var plotBorder: int
    var plotColors: seq<string>
    var legendBarWidth: int
    var legendPercentage: bool
    var legendWidth: int
    var legendTitle: string

    var speedField: string
    var maxSpeedRange: int
    var speeds: Speeds
    var dirs: seq<Option<real>>
    var times: seq<real>
    var samples: int
    var speedList: seq<real>

    var titleHeight: int
    var maxPlotDia: int
    var originX: int
    var originY: int
    var labelDir: int

    /** __init__: the palette keeps the configured colours that are not
        'none' and parse, topped up from the defaults. */
    constructor(getrgb: GetRgb, configuredColors: seq<string>, imageWidth: int, imageHeight: int,
                plotBorder: int, legendBarWidth: int)
      ensures this.plotColors == Palette(RefusingNone(getrgb), configuredColors) && |this.plotColors| >= 7
      ensures this.imageWidth == imageWidth && this.imageHeight == imageHeight
      ensures this.plotBorder == plotBorder && this.legendBarWidth == legendBarWidth
      ensures this.legendWidth == 0 && this.speedList == [] && this.titleHeight == 0
    {
      var colors := PlotColors(RefusingNone(getrgb), configuredColors);
      PaletteLength(RefusingNone(getrgb), configuredColors);
      this.imageWidth := imageWidth;
      this.imageHeight := imageHeight;
      this.plotBorder := plotBorder;
      this.plotColors := colors;
      this.legendBarWidth := legendBarWidth;
      this.legendPercentage := false;
      this.legendWidth := 0;
      this.legendTitle := "";
      this.speedField := "";
      this.maxSpeedRange := 0;
      this.speeds := [];
      this.dirs := [];
      this.times := [];
      this.samples := 0;
      this.speedList := [];
      this.titleHeight := 0;
      this.maxPlotDia := 0;
      this.originX := 0;
      this.originY := 0;
      this.labelDir := 6;
    }

    /** add_data: keeps the data, sets the top of the speed scale from the
        largest speed present (Python 2's max() passes over gaps) and
        fills the speed list: 0 first, then each factor times the top of
        scale. With no speed at all, max() of an empty vector raises
        ValueError and max() of only None gives None, which None / 10.0
        refuses with TypeError; the speed field is stored by then. */
    method AddData(speedField: string, speeds: Speeds, dirs: seq<Option<real>>, times: seq<real>, samples: int)
      returns (raised: bool)
      modifies this`speedField, this`maxSpeedRange, this`speeds, this`dirs, this`times, this`samples,
               this`speedList
      ensures raised <==> !HasSpeed(speeds)
      ensures this.speedField == speedField
      ensures raised ==> unchanged(this`maxSpeedRange, this`speeds, this`dirs, this`times, this`samples, this`speedList)
      ensures !raised ==> maxSpeedRange == MaxSpeedRange(MaxSpeed(speeds).value)
      ensures !raised ==> speedList == SpeedList(maxSpeedRange)
      ensures !raised ==> this.speeds == speeds && this.dirs == dirs && this.times == times && this.samples == samples
    {
      this.speedField := speedField;
      var max := MaxSpeed(speeds);
      if max.None? {
        return true;
      }
      raised := false;
      var maxSpeed := max.value;
      var range := (Trunc(maxSpeed / 10.0) + 1) * 10;
      this.maxSpeedRange := range;
      this.speeds := speeds;
      this.dirs := dirs;
      this.times := times;
      this.samples := samples;
      var list := [0.0, 0.0, 0.0, 0.0, 0.0, 0.0, 0.0];
      var i := 1;
      while i < 7
        invariant 1 <= i <= 7 && |list| == 7 && list[0] == 0.0
        invariant forall k :: 1 <= k < i ==> list[k] == SpeedFactors[k] * range as real
      {
        list := list[i := SpeedFactors[i] * range as real];
        i := i + 1;
      }
      assert list == SpeedList(range);
      speedList := list;
    }

    /** The title height render() measures before the grid is set up: the
        text height, or 0 without a title. */
    method SetTitleHeight(hasTitle: bool, textHeight: int)
      modifies this`titleHeight
      ensures titleHeight == if hasTitle then textHeight else 0
    {
      titleHeight := if hasTitle then textHeight else 0;
    }

    /** set_legend: the legacy plots always reserve the legend width. */
    method SetLegend(percentage: bool, textWidth: int)
      modifies this`legendPercentage, this`legendWidth, this`legendTitle
      ensures legendPercentage == percentage
      ensures legendWidth == LegendWidth(true, textWidth, legendBarWidth, plotBorder)
      ensures legendTitle == LegendTitle(Some(speedField))
    {
      legendPercentage := percentage;
      legendWidth := LegendWidth(true, textWidth, legendBarWidth, plotBorder);
      legendTitle := LegendTitle(Some(speedField));
    }

    /** set_polar_grid, given the measured width of "W". */
    method SetPolarGrid(westWidth: int)
      modifies this`maxPlotDia, this`originX, this`originY
      ensures maxPlotDia == LegacyDiameter(LegacyHeightAvailable(imageHeight, plotBorder, titleHeight),
                                           WidthBased(imageWidth, plotBorder, legendWidth))
      ensures (originX, originY) == LegacyOrigin(imageWidth, imageHeight, plotBorder, westWidth, maxPlotDia)
    {
      var h := Quantised(imageHeight - 2 * plotBorder - titleHeight / 2);
      var w := Quantised(imageWidth - (2 * plotBorder + legendWidth));
      maxPlotDia := if h <= w then h else w;
      if imageWidth > imageHeight {
        originX := plotBorder + westWidth + 2 + maxPlotDia / 2;
        originY := imageHeight / 2;
      } else {
        originX := 2 * plotBorder + maxPlotDia / 2;
        originY := 2 * plotBorder + maxPlotDia / 2;
      }
    }

    /** get_speed_color: looks down from the sixth boundary and stops at
        the first one the speed exceeds. */
    method GetSpeedColor(source: LineColor, speed: real) returns (r: Outcome<Ink>)
      requires |speedList| == 7 && |plotColors| >= 7
      ensures r == LegacySpeedInk(source, speed, speedList, plotColors)
    {
      if source.BySpeed? {
        r := Raises;
        var lookup := 5;
        while lookup >= 0
          invariant -1 <= lookup <= 5
          invariant HighestExceeded(speed, speedList, 5) == HighestExceeded(speed, speedList, lookup)
        {
          if speed > speedList[lookup] {
            r := Returns(BandColor(Some(plotColors[lookup + 1])));
            break;
          }
          lookup := lookup - 1;
        }
      } else {
        r := Returns(Constant(source));
      }
    }
  }

  // ---------------------------------------------------------------------
  // Integer division

  /** Floor division by a positive divisor keeps an order. */
  lemma DivMonotone(a: int, b: int, t: int)
    requires a <= b && t > 0
    ensures a / t <= b / t
  {
    var qa, qb := a / t, b / t;
    if qa > qb {
      MulMonotone(t, 1, qa - qb);
    }
  }

  lemma MulMonotone(t: int, a: int, b: int)
    requires t >= 0 && a <= b
    ensures t * a <= t * b
  {
    assert t * b - t * a == t * (b - a);
  }

  /** A multiple of t divided by t. */
  lemma DivOfMultiple(x: int, t: int)
    requires t > 0
    ensures (x * t) / t == x
  {
    var q, r := (x * t) / t, (x * t) % t;
    assert x * t == t * q + r && 0 <= r < t;
    assert t * (x - q) == r;
    if x - q >= 1 {
      MulMonotone(t, 1, x - q);
    } else if x - q <= -1 {
      MulMonotone(t, x - q, -1);
    }
  }

  // ---------------------------------------------------------------------
  // The sixteen-petal rose

  /** The petal of a bearing, int((dir + 11.25) / 22.5) % 16: sixteen
      petals of 22.5 degrees centred on north, the petal the current
      revision computes when it has sixteen petals. */
  function LegacyPetal(dir: real): (p: int)
    ensures 0 <= p < 16
    ensures p == Rose.Petal(dir, 16)
  {
    assert 180.0 / 16 as real == 11.25 && 360.0 / 16 as real == 22.5;
    Trunc((dir + 11.25) / 22.5) % 16
  }

  /** The counting loop of the legacy set_plot: a sample without speed or
      direction goes to the calm cell (16, 6), any other to its petal and
      its speed band; the table is the one the current revision builds
      with sixteen petals. */
  method LegacyTally(speeds: Speeds, dirs: seq<Option<real>>, samples: nat, sl: seq<real>) returns (windBin: Table)
    requires samples <= |speeds| && samples <= |dirs| && |sl| == 7
    ensures windBin == Rose.WindBins(speeds, dirs, samples, 16, sl)
  {
    ghost var cells := Rose.Cells(speeds, dirs, samples, 16, sl);
    windBin := ZeroTable(17, 7);
    var i := 0;
    while i < samples
      invariant 0 <= i <= samples
      invariant windBin == Tally(cells[..i], 17, 7)
    {
      var speed, dir := speeds[i], dirs[i];
      var cell: Cell;
      if speed.None? || dir.None? {
        cell := Cell(16, 6);
      } else {
        var bin := Trunc((dir.value + 11.25) / 22.5) % 16;
        assert bin == LegacyPetal(dir.value);
        var s := speed.value;
        var band := if s > sl[5] then 6 else if s > sl[4] then 5 else if s > sl[3] then 4
                    else if s > sl[2] then 3 else if s > sl[1] then 2 else if s > 0.0 then 1 else 0;
        cell := Cell(bin, band);
      }
      assert cell == cells[i];
      assert cells[..i + 1][..i] == cells[..i];
      windBin := Bump(windBin, cell);
      i := i + 1;
    }
    assert cells[..samples] == cells;
  }

  /** The arms looked at first, in order: SE, then SW, NE and NW. */
  const LegacyPreference: seq<int> := [6, 10, 2, 14]

  /** The order in which the arms are compared when none is clear: NE,
      SE, SW, NW. */
  const LegacyFallbackOrder: seq<int> := [2, 6, 10, 14]

  /** The totals of the given petals. */
  function ArmSums(windBin: Table, arms: seq<int>): (sums: seq<int>)
    requires |windBin| == 16 && forall i :: 0 <= i < |arms| ==> 0 <= arms[i] < 16
    ensures |sums| == |arms| && forall i :: 0 <= i < |arms| ==> sums[i] == Sum(windBin[arms[i]])
  {
    seq(|arms|, i requires 0 <= i < |arms| => Sum(windBin[arms[i]]))
  }

  /** The legacy label arm: the first clear arm in order of preference;
      when none is clear, the first of the least crowded in the order NE,
      SE, SW, NW. */
  function LegacyLabelArm(windBin: Table, samples: int, maxRingValue: real): (a: int)
    requires |windBin| == 16 && samples > 0
    ensures a in {2, 6, 10, 14}
  {
    var k := Rose.FirstClear(ArmSums(windBin, LegacyPreference), samples, maxRingValue);
    if k < 4 then LegacyPreference[k]
    else LegacyFallbackOrder[Rose.FirstMinimum(ArmSums(windBin, LegacyFallbackOrder))]
  }

  /** The arm is SE when SE is clear, else the first clear of SW, NE and
      NW; when none is clear it holds no more than any arm and strictly
      less than the arms before it in the order NE, SE, SW, NW. */
  lemma LegacyLabelArmChoice(windBin: Table, samples: int, maxRingValue: real)
    requires |windBin| == 16 && samples > 0
    ensures var a := LegacyLabelArm(windBin, samples, maxRingValue);
      var se, sw, ne, nw := Rose.ArmClear(Sum(windBin[6]), samples, maxRingValue),
        Rose.ArmClear(Sum(windBin[10]), samples, maxRingValue),
        Rose.ArmClear(Sum(windBin[2]), samples, maxRingValue),
        Rose.ArmClear(Sum(windBin[14]), samples, maxRingValue);
      (se ==> a == 6) &&
      (!se && sw ==> a == 10) &&
      (!se && !sw && ne ==> a == 2) &&
      (!se && !sw && !ne && nw ==> a == 14) &&
      (!se && !sw && !ne && !nw ==>
        exists j :: 0 <= j < 4 && a == LegacyFallbackOrder[j] &&
          (forall i :: 0 <= i < 4 ==> Sum(windBin[a]) <= Sum(windBin[LegacyFallbackOrder[i]])) &&
          (forall i :: 0 <= i < j ==> Sum(windBin[a]) < Sum(windBin[LegacyFallbackOrder[i]])))
  {
    var pref := ArmSums(windBin, LegacyPreference);
    assert pref == [Sum(windBin[6]), Sum(windBin[10]), Sum(windBin[2]), Sum(windBin[14])];
    var k := Rose.FirstClear(pref, samples, maxRingValue);
    assert pref[0] == Sum(windBin[6]) && pref[1] == Sum(windBin[10]) && pref[2] == Sum(windBin[2]) && pref[3] == Sum(windBin[14]);
    var se := Rose.ArmClear(pref[0], samples, maxRingValue);
    var sw := Rose.ArmClear(pref[1], samples, maxRingValue);
    var ne := Rose.ArmClear(pref[2], samples, maxRingValue);
    assert k > 0 ==> !se;
    assert k > 1 ==> !sw;
    assert k > 2 ==> !ne;
    if k == 4 {
      var j := Rose.FirstMinimum(ArmSums(windBin, LegacyFallbackOrder));
      assert LegacyLabelArm(windBin, samples, maxRingValue) == LegacyFallbackOrder[j];
    }
  }

  /** When some arm is clear both revisions pick the same one. */
  lemma LegacyLabelArmAgreesWhenClear(windBin: Table, samples: int, maxRingValue: real)
    requires |windBin| == 16 && samples > 0
    requires exists i :: 0 <= i < 4 && Rose.ArmClear(Sum(windBin[LegacyPreference[i]]), samples, maxRingValue)
    ensures LegacyLabelArm(windBin, samples, maxRingValue) ==
      Rose.LabelArm(Rose.CandidateSums(windBin, 16), 16, samples, maxRingValue)
  {
    Rose.ArmLabelsOfFewPetals();
    var pref := ArmSums(windBin, LegacyPreference);
    assert Rose.CandidateSums(windBin, 16) == pref;
    var i :| 0 <= i < 4 && Rose.ArmClear(pref[i], samples, maxRingValue);
    assert Rose.FirstClear(pref, samples, maxRingValue) < 4;
  }

  /** When no arm is clear and all four are equally crowded the legacy
      revision takes NE and the current one SE: the two break ties in
      different orders. */
  lemma TiesBrokenDifferently(windBin: Table, samples: int, maxRingValue: real)
    requires |windBin| == 16 && samples > 0
    requires Sum(windBin[2]) == Sum(windBin[6]) == Sum(windBin[10]) == Sum(windBin[14])
    requires !Rose.ArmClear(Sum(windBin[6]), samples, maxRingValue)
    ensures LegacyLabelArm(windBin, samples, maxRingValue) == 2
    ensures Rose.LabelArm(Rose.CandidateSums(windBin, 16), 16, samples, maxRingValue) == 6
  {
    Rose.ArmLabelsOfFewPetals();
    var pref := ArmSums(windBin, LegacyPreference);
    assert Rose.CandidateSums(windBin, 16) == pref;
    assert pref == [Sum(windBin[6]), Sum(windBin[10]), Sum(windBin[2]), Sum(windBin[14])];
    Rose.FirstClearAt(pref, samples, maxRingValue, 4);
    var fall := ArmSums(windBin, LegacyFallbackOrder);
    assert fall == [Sum(windBin[2]), Sum(windBin[6]), Sum(windBin[10]), Sum(windBin[14])];
  }

  /** The label-arm choice of the legacy set_plot: SE first, then a for
      loop over SW, NE and NW that stops at the first clear arm, and its
      else branch keeping the strictly smallest total from one more than
      any petal can hold. */
  method LegacyChooseLabelArm(windBin: Table, samples: int, maxRingValue: real) returns (labelDir: int)
    requires |windBin| == 16 && samples > 0
    requires forall r :: 0 <= r < 16 ==> Sum(windBin[r]) <= samples
    ensures labelDir == LegacyLabelArm(windBin, samples, maxRingValue)
  {
    ghost var pref := ArmSums(windBin, LegacyPreference);
    if Sum(windBin[6]) as real / samples as real <= 0.3 * maxRingValue {
      Rose.FirstClearAt(pref, samples, maxRingValue, 0);
      labelDir := 6;
      return;
    }
    var others := [10, 2, 14];
    for i := 0 to 3
      invariant forall j :: 0 <= j <= i ==> !Rose.ArmClear(pref[j], samples, maxRingValue)
    {
      assert others[i] == LegacyPreference[i + 1];
      if Sum(windBin[others[i]]) as real / samples as real <= 0.3 * maxRingValue {
        Rose.FirstClearAt(pref, samples, maxRingValue, i + 1);
        labelDir := others[i];
        return;
      }
    }
    Rose.FirstClearAt(pref, samples, maxRingValue, 4);
    ghost var fall := ArmSums(windBin, LegacyFallbackOrder);
    var order := [2, 6, 10, 14];
    var labelCount := samples + 1;
    var chosen: Option<int> := None;
    ghost var best := 0;
    for i := 0 to 4
      invariant chosen.None? <==> i == 0
      invariant i > 0 ==> 0 <= best < i && best == Rose.FirstMinimum(fall[..i])
      invariant i > 0 ==> labelCount == fall[best] && chosen == Some(order[best])
      invariant i == 0 ==> labelCount == samples + 1
    {
      assert fall[..i + 1][..i] == fall[..i];
      if Sum(windBin[order[i]]) < labelCount {
        labelCount := Sum(windBin[order[i]]);
        chosen := Some(order[i]);
        best := i;
      }
    }
    assert fall[..4] == fall;
    labelDir := chosen.value;
  }

  /** armRadius of render_plot: int((10 * dia * total) / (11 * 2.0 *
      maxRingValue * samples)), ten elevenths of the plot radius scaled
      by the petal's share of the outer ring value. */
  function LegacyArmRadius(dia: int, total: int, maxRingValue: real, samples: int): int
    requires maxRingValue > 0.0 && samples > 0
  {
    Trunc((10 * dia * total) as real / (22.0 * maxRingValue * samples as real))
  }

  /** A petal that holds no more than the largest one has a non-negative
      arm radius of at most ten elevenths of the plot radius. */
  lemma LegacyArmWithinPlot(dia: int, total: int, maxRow: int, samples: int)
    requires dia >= 0 && 0 <= total <= maxRow && samples > 0
    ensures var a := LegacyArmRadius(dia, total, Rose.MaxRingValue(maxRow, samples), samples);
      0 <= a && 22 * a <= 10 * dia
  {
    Rose.ShareMonotone(total as real, maxRow as real, samples as real);
    ArmWithinShare(dia, total, Rose.MaxRingValue(maxRow, samples), samples);
  }

  /** An arm radius whose petal's share of the samples is below the
      outer ring value is non-negative and at most ten elevenths of the
      plot radius. */
  lemma ArmWithinShare(dia: int, total: int, m: real, samples: int)
    requires dia >= 0 && total >= 0 && samples > 0 && m > 0.0
    requires total as real / samples as real < m
    ensures 0 <= LegacyArmRadius(dia, total, m, samples) && 22 * LegacyArmRadius(dia, total, m, samples) <= 10 * dia
  {
    var s := samples as real;
    var d := (10 * dia) as real;
    var c := total as real;
    var n := 10 * dia * total;
    var x := n as real / (22.0 * m * s);
    assert x == (10 * dia * total) as real / (22.0 * m * samples as real);
    WithinShare(dia, total, m, samples, x);
    TruncBelow(x, 10 * dia, 22);
  }

  lemma WithinShare(dia: int, total: int, m: real, samples: int, x: real)
    requires dia >= 0 && total >= 0 && samples > 0 && m > 0.0
    requires total as real / samples as real < m
    requires x == (10 * dia * total) as real / (22.0 * m * samples as real)
    ensures 0.0 <= x && 22.0 * x <= (10 * dia) as real
  {
    var s := samples as real;
    var d := (10 * dia) as real;
    var c := total as real;
    CastProduct(10 * dia, total);
    ShareWithinOne(c, s, m);
    RatioBound((10 * dia * total) as real, 22.0 * m * s, d, c, m * s);
  }

  lemma CastProduct(a: int, b: int)
    ensures (a * b) as real == a as real * b as real
  {
  }

  lemma RatioBound(n: real, q: real, d: real, c: real, ms: real)
    requires n == d * c && q == 22.0 * ms && ms > 0.0 && d >= 0.0
    requires 0.0 <= c / ms <= 1.0
    ensures 0.0 <= n / q && 22.0 * (n / q) <= d
  {
    QuotientSplit(d, c, ms);
    ScaleLe(0.0, c / ms, d / 22.0);
    ScaleLe(c / ms, 1.0, d / 22.0);
  }

  /** int() of a non-negative x with k * x <= n is at most n / k. */
  lemma TruncBelow(x: real, n: int, k: int)
    requires 0.0 <= x && k > 0 && k as real * x <= n as real
    ensures 0 <= Trunc(x) && k * Trunc(x) <= n
  {
    ScaleLe(Trunc(x) as real, x, k as real);
  }

  lemma ShareWithinOne(c: real, s: real, m: real)
    requires c >= 0.0 && s > 0.0 && m > 0.0 && c / s < m
    ensures 0.0 <= c / (m * s) <= 1.0
  {
    ScaleLt(c / s, m, s);
    assert c / s * s == c;
    ScaleLt(0.0, m, s);
    var q := m * s;
    Rose.ShareMonotone(0.0, c, q);
    Rose.ShareBelowOne(c, q);
  }
  lemma QuotientSplit(d: real, c: real, q: real)
    requires q > 0.0
    ensures (d * c) / (22.0 * q) == d / 22.0 * (c / q)
  {
  }

  /** pieRadius of render_plot: in Python 2 armRadius * cum / total is
      floor division of integers and dia / 22 too, so the round() has
      nothing to round. */
  function LegacyPieRadius(arm: int, cum: int, total: int, dia: int): int
    requires total > 0
  {
    RoundHalfAway((arm * cum / total + dia / 22) as real)
  }

  /** The radii of the six slices of a petal, outermost first: slice k
      covers bands 0 to 6 - k. */
  function LegacyPetalSlices(row: seq<nat>, arm: int, dia: int): (radii: seq<int>)
    requires |row| == 7 && Sum(row) > 0
    ensures |radii| == 6
  {
    seq(6, k requires 0 <= k < 6 => LegacyPieRadius(arm, Sum(row[..7 - k]), Sum(row), dia))
  }

  /** A slice over cum of the petal's total samples: between the bullseye
      (dia / 22) and bullseye plus arm radius, larger for more samples. */
  lemma LegacyPieBounds(arm: int, c1: int, c2: int, total: int, dia: int)
    requires arm >= 0 && 0 <= c1 <= c2 <= total && total > 0
    ensures dia / 22 <= LegacyPieRadius(arm, c1, total, dia) <= LegacyPieRadius(arm, c2, total, dia)
    ensures LegacyPieRadius(arm, c2, total, dia) <= arm + dia / 22
    ensures LegacyPieRadius(arm, total, total, dia) == arm + dia / 22
  {
    RoundOfWhole(arm * c1 / total + dia / 22);
    RoundOfWhole(arm * c2 / total + dia / 22);
    RoundOfWhole(arm * total / total + dia / 22);
    MulMonotone(arm, 0, c1);
    MulMonotone(arm, c1, c2);
    MulMonotone(arm, c2, total);
    DivMonotone(0, arm * c1, total);
    DivMonotone(arm * c1, arm * c2, total);
    DivMonotone(arm * c2, arm * total, total);
    DivOfMultiple(arm, total);
  }

  /** The slices of a petal shrink inwards from the outermost, which is
      the bullseye plus the arm radius, and none is inside the bullseye;
      with the arm radius of a petal no larger than the largest all lie
      within the plot radius. */
  lemma LegacyPetalSlicesShape(row: seq<nat>, dia: int, maxRow: int, samples: int)
    requires |row| == 7 && 0 < Sum(row) <= maxRow && samples > 0 && dia >= 0
    ensures var arm := LegacyArmRadius(dia, Sum(row), Rose.MaxRingValue(maxRow, samples), samples);
      var radii := LegacyPetalSlices(row, arm, dia);
      radii[0] == arm + dia / 22 &&
      (forall k :: 0 <= k < 5 ==> radii[k + 1] <= radii[k]) &&
      (forall k :: 0 <= k < 6 ==> dia / 22 <= radii[k] && 2 * radii[k] <= dia)
  {
    var arm := LegacyArmRadius(dia, Sum(row), Rose.MaxRingValue(maxRow, samples), samples);
    LegacyArmWithinPlot(dia, Sum(row), maxRow, samples);
    var radii := LegacyPetalSlices(row, arm, dia);
    assert row[..7] == row;
    LegacyPieBounds(arm, Sum(row), Sum(row), Sum(row), dia);
    forall k | 0 <= k < 6
      ensures dia / 22 <= radii[k] <= arm + dia / 22 && (k < 5 ==> radii[k + 1] <= radii[k])
    {
      SumPrefixMonotone(row, 6 - k, 7 - k);
      SumPrefixMonotone(row, 7 - k, 7);
      SumPrefixMonotone(row, 0, 6 - k);
      assert row[..0] == [];
      LegacyPieBounds(arm, Sum(row[..6 - k]), Sum(row[..7 - k]), Sum(row), dia);
    }
  }

  /** get_ring_label of the legacy rose: ring r shows r fifths of the
      outer ring value as a percentage, rounded half away from zero; every
      ring is labelled. */
  function LegacyRoseRingLabel(maxRingValue: real, ring: int): int
  {
    RoundHalfAway(maxRingValue / 5.0 * ring as real * 100.0)
  }

  /** Every ring label is an exact whole number of percent: ring r shows
      r times one fifth of the outer ring value, and the outer ring its
      value, 5 * k% for the k-th multiple of 5%. */
  lemma LegacyRoseRingLabels(maxRow: int, samples: int, ring: int)
    requires samples > 0 && maxRow >= 0
    ensures var k := (20 * maxRow) / samples + 1;
      LegacyRoseRingLabel(Rose.MaxRingValue(maxRow, samples), ring) == ring * k &&
      LegacyRoseRingLabel(Rose.MaxRingValue(maxRow, samples), 5) == 5 * k
  {
    var k := (20 * maxRow) / samples + 1;
    var v := Rose.MaxRingValue(maxRow, samples);
    assert v / 5.0 * ring as real * 100.0 == (ring * k) as real;
    assert v / 5.0 * 5.0 * 100.0 == (5 * k) as real;
    RoundOfWhole(ring * k);
    RoundOfWhole(5 * k);
  }

  class LegacyRosePlot {
    const base: LegacyPlot
    var petalWidth: int
    var windBin: Table
    var speedBin: seq<int>
    var maxRingValue: real
    var ringUnits: string

    /** __init__ of the legacy rose: the petal width in degrees, 16 by
        default. */
    constructor(base: LegacyPlot, petalWidth: Option<int>)
      ensures this.base == base
      ensures this.petalWidth == if petalWidth.Some? then petalWidth.value else 16
    {
      this.base := base;
      this.petalWidth := if petalWidth.Some? then petalWidth.value else 16;
      this.windBin := [];
      this.speedBin := [];
      this.maxRingValue := 0.0;
      this.ringUnits := "";
    }

    /** set_plot: counts the samples into sixteen petals and the calm
        cell, adds the calm count to band 0 and drops the calm row, totals
        the bands, sets the outer ring value and picks the label arm. */
    method SetPlot()
      requires |base.speedList| == 7
      requires 0 < base.samples <= |base.speeds| && base.samples <= |base.dirs|
      modifies this`windBin, this`speedBin, this`maxRingValue, this`ringUnits, base`labelDir
      ensures var full := Rose.WindBins(base.speeds, base.dirs, base.samples, 16, base.speedList);
        windBin == full[..16] && |speedBin| == 7 &&
        (forall c :: 0 <= c < 7 ==> speedBin[c] == ColSum(windBin, c) + (if c == 0 then full[16][6] else 0))
      ensures Sum(speedBin) == base.samples
      ensures maxRingValue == Rose.MaxRingValue(Rose.MaxRowSum(windBin), base.samples)
      ensures base.labelDir == LegacyLabelArm(windBin, base.samples, maxRingValue)
      ensures ringUnits == "%"
    {
      var speeds, dirs, samples, sl := base.speeds, base.dirs, base.samples, base.speedList;
      var full := LegacyTally(speeds, dirs, samples, sl);
      var calm := full[16][6];
      Rose.RoseConservesSamples(speeds, dirs, samples, 16, sl);
      var rows := full[..16];
      var totals := Rose.SpeedTotals(rows, calm);
      Rose.SpeedTotalsSum(rows, calm, totals);
      Rose.RowsWithinSamples(rows, samples - calm);
      var ringVal := Rose.MaxRingValue(Rose.MaxRowSum(rows), samples);
      var arm := LegacyChooseLabelArm(rows, samples, ringVal);
      windBin := rows;
      speedBin := totals;
      maxRingValue := ringVal;
      ringUnits := "%";
      base.labelDir := arm;
      assert base.speeds == speeds && base.dirs == dirs && base.samples == samples && base.speedList == sl;
    }

    /** The slice radii render_plot draws for one petal, outermost (band
        6) first; a petal without samples is not drawn. */
    method PetalRadii(a: int) returns (radii: seq<int>)
      requires 0 <= a < |windBin| && |windBin[a]| == 7
      requires maxRingValue > 0.0 && base.samples > 0
      ensures Sum(windBin[a]) > 0 ==>
        radii == LegacyPetalSlices(windBin[a], LegacyArmRadius(base.maxPlotDia, Sum(windBin[a]), maxRingValue, base.samples),
                                   base.maxPlotDia)
      ensures Sum(windBin[a]) <= 0 ==> radii == []
    {
      var row := windBin[a];
      var dia := base.maxPlotDia;
      var s := 6;
      var cumRadius := Sum(row);
      radii := [];
      if cumRadius > 0 {
        var armRadius := LegacyArmRadius(dia, Sum(row), maxRingValue, base.samples);
        assert row[..7] == row;
        while s > 0
          invariant 0 <= s <= 6 && |radii| == 6 - s
          invariant cumRadius == Sum(row[..s + 1])
          invariant forall k :: 0 <= k < 6 - s ==>
            radii[k] == LegacyPieRadius(armRadius, Sum(row[..7 - k]), Sum(row), dia)
        {
          radii := radii + [RoundHalfAway((armRadius * cumRadius / Sum(row) + dia / 22) as real)];
          assert row[..s + 1][..s] == row[..s];
          cumRadius := cumRadius - row[s];
          s := s - 1;
        }
      }
    }
  }

  // ---------------------------------------------------------------------
  // Spiral time labels

  /** The sample whose time labels circle n (0 to 5) of the legacy
      spiral, as written: int(round((samples - 1) * n / 5)). In Python 2
      the division of two integers is already floored, so round() has
      nothing left to round. */
  function LegacySpiralLabelSampleAsWritten(samples: int, n: int): (s: int)
    requires samples >= 1 && 0 <= n <= 5
    ensures 0 <= s <= samples - 1
    ensures n == 0 ==> s == 0
    ensures n == 5 ==> s == samples - 1
  {
    MulMonotone(samples - 1, n, 5);
    MulMonotone(samples - 1, 0, n);
    DivMonotone((samples - 1) * n, (samples - 1) * 5, 5);
    DivOfMultiple(samples - 1, 5);
    RoundOfWhole(((samples - 1) * n) / 5);
    RoundHalfAway((((samples - 1) * n) / 5) as real)
  }

  /** The sample the rounding is meant to pick: the one nearest to n
      fifths of the way from the first sample to the last. */
  function LegacySpiralLabelSample(samples: int, n: int): (s: int)
    requires samples >= 1 && 0 <= n <= 5
    ensures 0 <= s <= samples - 1
    ensures -0.5 <= s as real - ((samples - 1) * n) as real / 5.0 <= 0.5
    ensures n == 0 ==> s == 0
    ensures n == 5 ==> s == samples - 1
  {
    MulMonotone(samples - 1, n, 5);
    MulMonotone(samples - 1, 0, n);
    RoundStaysInRange(((samples - 1) * n) as real / 5.0, 0, samples - 1);
    assert ((samples - 1) * 5) as real / 5.0 == (samples - 1) as real;
    RoundOfWhole(samples - 1);
    RoundOfWhole(0);
    RoundHalfAway(((samples - 1) * n) as real / 5.0)
  }

  /** The floored sample is never later than the nearest one, and can be
      a whole sample earlier: with four samples the fourth circle, at 1.8
      samples, shows sample 1 instead of sample 2. */
  lemma FlooredLabelSample(samples: int, n: int)
    requires samples >= 1 && 0 <= n <= 5
    ensures LegacySpiralLabelSampleAsWritten(samples, n) <= LegacySpiralLabelSample(samples, n)
    ensures LegacySpiralLabelSampleAsWritten(4, 3) == 1 && LegacySpiralLabelSample(4, 3) == 2
  {
    var m := (samples - 1) * n;
    MulMonotone(samples - 1, 0, n);
    FloorOfQuotient(m, 5);
    assert m as real / 5.0 == m as real / 5 as real;
    assert (m / 5) as real <= m as real / 5.0;
    RoundOfWhole(m / 5);
    assert 9.0 / 5.0 == 1.8;
  }

  // ---------------------------------------------------------------------
  // Scatter line style

  const LegacyLineStyles: set<string> := {"straight", "spoke", "radial"}

  /** line_style of the legacy scatter plot as written: a value that is
      not a known style in any case becomes 'straight'; a known one is
      kept as it was written. */
  function LegacyLineStyleAsWritten(option: Option<string>): (style: string)
    ensures var raw := if option.Some? then option.value else "straight";
      style == raw || style == "straight"
    ensures Lower(style) in LegacyLineStyles
  {
    LowerNoCapitals("straight");
    var raw := if option.Some? then option.value else "straight";
    if Lower(raw) !in LegacyLineStyles then "straight" else raw
  }

  /** The line render_plot draws for a line style: it compares with the
      lower-case names, so any other spelling draws no line. */
  function DrawnLine(style: string): (t: Option<LineType>)
    ensures t.Some? ==> LineTypeName(t.value) == style
    ensures t.None? ==> style !in LegacyLineStyles
  {
    if style == "straight" then Some(Straight)
    else if style == "spoke" then Some(Spoke)
    else if style == "radial" then Some(Radial)
    else None
  }

  /** line_style as intended: the lower case of a known style, so that
      the style accepted is the one drawn. */
  function LegacyLineStyle(option: Option<string>): (style: string)
    ensures style in LegacyLineStyles
    ensures DrawnLine(style).Some?
    ensures var raw := if option.Some? then option.value else "straight";
      Lower(raw) in LegacyLineStyles ==> style == Lower(raw)
  {
    var raw := if option.Some? then option.value else "straight";
    if Lower(raw) !in LegacyLineStyles then "straight" else Lower(raw)
  }

  /** A capitalised style passes the check but draws no line as written;
      read as intended it draws the style. */
  lemma CapitalisedStyleDrawsNoLine()
    ensures LegacyLineStyleAsWritten(Some("Radial")) == "Radial"
    ensures DrawnLine(LegacyLineStyleAsWritten(Some("Radial"))).None?
    ensures DrawnLine(LegacyLineStyle(Some("Radial"))) == Some(Radial)
  {
    assert Lower("Radial") == "radial" by {
      var l := Lower("Radial");
      assert l[0] == 'r' && l[1] == 'a' && l[2] == 'd' && l[3] == 'i' && l[4] == 'a' && l[5] == 'l';
    }
  }

  /** Read as intended, the legacy line style draws the line the current
      revision's line_type does, wherever that one draws a line at all. */
  lemma LegacyLineStyleMatchesLineType(option: Option<string>)
    requires var raw := if option.Some? then option.value else "straight";
      Lower(raw) != "" && Lower(raw) != "none"
    ensures DrawnLine(LegacyLineStyle(option)) == ParseLineType(option, true)
  {
  }
}
