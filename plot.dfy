/** The state every polar wind plot shares (class PolarWindPlot of the
    current revision): the configuration read by __init__, the data handed
    over by add_data, and the sizes the set_* methods compute before
    rendering. Text sizes and the colour lookup are inputs. */
module Plot {
  import opened Py
  import opened Colors
  import opened SpeedBands
  import opened Grid
  import opened Config

  /** What get_speed_color hands to the drawing calls: a band colour
      picked by speed (None at or below the calm boundary), or the
      configured colour passed through. */
  datatype Ink = BandColor(name: Option<string>) | Constant(color: LineColor)

  class PolarWindPlot {
    var imageWidth: int
    var imageHeight: int
    var plotBorder: int
    var plotColors: seq<string>
    var legend: bool
    var legendBarWidth: int
    var legendPercentage: bool
    var legendWidth: int
    var legendTitle: string
    var rings: int
    var timestampLocation: StampLocation
    var ringLabelClearArc: real

    var speedField: string
    var maxSpeedRange: int
    var speeds: Speeds
    var dirs: seq<Option<real>>
    var times: seq<real>
    var samples: int
    var speedList: seq<real>

    var titleHeight: int
    var maxPlotDia: int
    var originX: int
    var originY: int

    var speedBin: seq<int>
    var labelDir: Option<LabelDir>

    /** __init__: the palette is the valid configured colours topped up
        from the defaults, the timestamp location is normalised; nothing
        has been measured or computed yet. */
    constructor(getrgb: GetRgb, configuredColors: seq<string>, imageWidth: int, imageHeight: int,
                plotBorder: int, legend: bool, legendBarWidth: int, rings: int,
                stampOption: Option<ConfigValue>, ringLabelClearArc: real)
      ensures this.plotColors == Palette(getrgb, configuredColors) && |this.plotColors| >= 7
      ensures this.timestampLocation == TimestampLocation(stampOption)
      ensures this.imageWidth == imageWidth && this.imageHeight == imageHeight
      ensures this.plotBorder == plotBorder && this.legend == legend
      ensures this.legendBarWidth == legendBarWidth && this.rings == rings
      ensures this.ringLabelClearArc == ringLabelClearArc
      ensures this.legendWidth == 0 && this.speedList == [] && this.labelDir.None?
    {
      var colors := PlotColors(getrgb, configuredColors);
      PaletteLength(getrgb, configuredColors);
      this.imageWidth := imageWidth;
      this.imageHeight := imageHeight;
      this.plotBorder := plotBorder;
      this.plotColors := colors;
      this.legend := legend;
      this.legendBarWidth := legendBarWidth;
      this.legendPercentage := false;
      this.legendWidth := 0;
      this.legendTitle := "";
      this.rings := rings;
      this.timestampLocation := TimestampLocation(stampOption);
      this.ringLabelClearArc := ringLabelClearArc;
      this.speedField := "";
      this.maxSpeedRange := 0;
      this.speeds := [];
      this.dirs := [];
      this.times := [];
      this.samples := 0;
      this.speedList := [];
      this.titleHeight := 0;
      this.maxPlotDia := 0;
      this.originX := 0;
      this.originY := 0;
      this.speedBin := [];
      this.labelDir := None;
    }

    /** add_data: keeps the data and sets the top of the speed scale from
        the largest speed present. A vector without any speed has no
        maximum: max() of an empty vector raises ValueError, and of one
        holding only None gives None (or raises), which the division then
        refuses. The call then raises once the speed field is stored. */
    method AddData(speedField: string, speeds: Speeds, dirs: seq<Option<real>>, times: seq<real>, samples: int)
      returns (raised: bool)
      modifies this`speedField, this`maxSpeedRange, this`speeds, this`dirs, this`times, this`samples
      ensures raised <==> !HasSpeed(speeds)
      ensures this.speedField == speedField
      ensures raised ==> unchanged(this`maxSpeedRange, this`speeds, this`dirs, this`times, this`samples)
      ensures !raised ==> this.maxSpeedRange == MaxSpeedRange(MaxSpeed(speeds).value)
      ensures !raised ==> this.speeds == speeds && this.dirs == dirs && this.times == times && this.samples == samples
    {
      this.speedField := speedField;
      var maxSpeed := MaxSpeed(speeds);
      if maxSpeed.None? {
        return true;
      }
      raised := false;
      this.maxSpeedRange := MaxSpeedRange(maxSpeed.value);
      this.speeds := speeds;
      this.dirs := dirs;
      this.times := times;
      this.samples := samples;
    }

    /** set_speed_list: seven boundaries, each factor times the top of scale. */
    method SetSpeedList()
      modifies this`speedList
      ensures speedList == SpeedList(maxSpeedRange)
    {
      speedList := [0.0, 0.0, 0.0, 0.0, 0.0, 0.0, 0.0];
      for i := 0 to 7
        invariant |speedList| == 7
        invariant forall k :: 0 <= k < i ==> speedList[k] == SpeedFactors[k] * maxSpeedRange as real
      {
        speedList := speedList[i := SpeedFactors[i] * maxSpeedRange as real];
      }
    }

    /** set_title: the title height is the measured text height, or 0
        without a title. */
    method SetTitle(hasTitle: bool, textHeight: int)
      modifies this`titleHeight
      ensures titleHeight == if hasTitle then textHeight else 0
    {
      titleHeight := if hasTitle then textHeight else 0;
    }

    /** set_legend: textWidth is the measured width of the widest label
        ('0 (100%)' with percentages, '999' without). */
    method SetLegend(percentage: bool, textWidth: int)
      modifies this`legendPercentage, this`legendWidth, this`legendTitle
      ensures legendWidth == LegendWidth(legend, textWidth, legendBarWidth, plotBorder)
      ensures legend ==> legendPercentage == percentage && legendTitle == LegendTitle(Some(speedField))
      ensures !legend ==> legendPercentage == old(legendPercentage) && legendTitle == old(legendTitle)
    {
      if legend {
        legendPercentage := percentage;
        legendWidth := LegendWidth(legend, textWidth, legendBarWidth, plotBorder);
        legendTitle := LegendTitle(Some(speedField));
      } else {
        legendWidth := 0;
      }
    }

    /** set_polar_grid, given the measured compass labels. */
    method SetPolarGrid(northHeight: int, southHeight: int, westWidth: int, eastWidth: int)
      modifies this`maxPlotDia, this`originX, this`originY
      ensures maxPlotDia == PlotDiameter(HeightBased(imageHeight, plotBorder, titleHeight, northHeight, southHeight),
                                         WidthBased(imageWidth, plotBorder, legendWidth))
      ensures originX == OriginX(imageWidth, legendWidth, eastWidth, westWidth)
      ensures originY == OriginY(imageHeight, titleHeight, northHeight, southHeight)
    {
      var heightBased := HeightBased(imageHeight, plotBorder, titleHeight, northHeight, southHeight);
      var widthBased := WidthBased(imageWidth, plotBorder, legendWidth);
      maxPlotDia := PlotDiameter(heightBased, widthBased);
      originX := OriginX(imageWidth, legendWidth, eastWidth, westWidth);
      originY := OriginY(imageHeight, titleHeight, northHeight, southHeight);
    }

    /** The speed-banded branch of get_speed_color: looks down from the
        sixth boundary for the first one the speed exceeds. */
    method SpeedBandColor(speed: real) returns (c: Option<string>)
      requires |speedList| == 7 && |plotColors| >= 7
      ensures c == SpeedColor(speed, speedList, plotColors)
    {
      c := None;
      for lookup := 6 downto 0
        invariant HighestExceeded(speed, speedList, 5) == HighestExceeded(speed, speedList, lookup - 1)
      {
        if speed > speedList[lookup] {
          c := Some(plotColors[lookup + 1]);
          return;
        }
      }
    }

    /** get_speed_color: by speed band, or the configured colour. */
    method GetSpeedColor(source: LineColor, speed: real) returns (ink: Ink)
      requires |speedList| == 7 && |plotColors| >= 7
      ensures source.BySpeed? ==> ink == BandColor(SpeedColor(speed, speedList, plotColors))
      ensures !source.BySpeed? ==> ink == Constant(source)
    {
      if source.BySpeed? {
        var c := SpeedBandColor(speed);
        ink := BandColor(c);
      } else {
        ink := Constant(source);
      }
    }
  }
}
