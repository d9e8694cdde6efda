/** Configuration normalisation of the current revision: the timestamp
    location, line types and line colours, the plot type dispatch, the
    wind field pairing, the legend title and the rule for skipping a plot
    that is still fresh. */
module Config {
  import opened Py
  import opened Colors

  // ---------------------------------------------------------------------
  // Timestamp location

  const VerticalWords: set<string> := {"top", "bottom"}
  const HorizontalWords: set<string> := {"left", "centre", "center", "right"}

  /** time_stamp_location after __init__: the configured value cannot be
      read (a comma-separated list has no lower()), no timestamp, or the set
      of location words. */
  datatype StampLocation = Unreadable | NoStamp | Stamp(places: set<string>)

  /** Adds 'bottom' when no vertical word is present and 'right' when no
      horizontal word is present. */
  function WithDefaults(places: set<string>): (r: set<string>)
    ensures places <= r && r - places <= {"bottom", "right"}
    ensures r * VerticalWords != {} && r * HorizontalWords != {}
    ensures places * VerticalWords != {} && places * HorizontalWords != {} ==> r == places
  {
    var v := if places * VerticalWords == {} then places + {"bottom"} else places;
    assert places * VerticalWords == {} ==> "bottom" in v * VerticalWords;
    var h := if v * HorizontalWords == {} then v + {"right"} else v;
    assert v * HorizontalWords == {} ==> "right" in h * HorizontalWords;
    assert v * VerticalWords <= h * VerticalWords;
    h
  }

  const DefaultStampOption: string := "bottom, right"

  /** The timestamp location: the option (default 'bottom, right') is
      lower-cased; 'none' switches the timestamp off; otherwise the single
      word, as option_as_list wraps a string, completed with the default
      vertical and horizontal positions. */
  function TimestampLocation(option: Option<ConfigValue>): (r: StampLocation)
    ensures r.Unreadable? <==> option.Some? && option.value.List?
    ensures r.NoStamp? <==> option.Some? && option.value.Str? && Lower(option.value.s) == "none"
    ensures r.Stamp? ==> r.places * VerticalWords != {} && r.places * HorizontalWords != {}
    ensures r.Stamp? && option.Some? ==>
      Lower(option.value.s) in r.places && r.places - {Lower(option.value.s)} <= {"bottom", "right"}
  {
    match option
    case None => StampOfWord(DefaultStampOption)
    case Some(List(_)) => Unreadable
    case Some(Str(s)) => StampOfWord(Lower(s))
  }

  /** The location given by one lower-cased word. */
  function StampOfWord(l: string): (r: StampLocation)
    ensures r.NoStamp? <==> l == "none"
    ensures r.Stamp? ==> l in r.places && r.places - {l} <= {"bottom", "right"}
    ensures !r.Unreadable?
  {
    if l == "none" then NoStamp else Stamp(WithDefaults({l}))
  }

  /** Without the option the timestamp goes bottom right: the default
      string is not split, but 'bottom' and 'right' are added to it. */
  lemma DefaultStampLocation()
    ensures var r := TimestampLocation(None);
      r.Stamp? && "bottom" in r.places && "right" in r.places &&
      r.places * {"top", "left", "centre", "center"} == {}
  {
    var s := DefaultStampOption;
    var r := WithDefaults({s});
    assert StampOfWord(s) == Stamp(r);
    assert r <= {s, "bottom", "right"};
    assert s !in VerticalWords && s !in HorizontalWords;
    assert "bottom" in r;
    assert "right" in r;
  }

  /** A single word is kept and completed: 'Top' gives top right. */
  lemma SingleWordStampLocation()
    ensures TimestampLocation(Some(Str("Top"))) == Stamp({"top", "right"})
  {
    assert Lower("Top") == "top";
    assert {"top"} * HorizontalWords == {};
  }

  /** Vertical and horizontal placement of a text label. */
  datatype VPos = Top | Bottom
  datatype HPos = Left | Centre | Right
  datatype Placement = Placement(v: VPos, h: HPos)

  /** Where render_timestamp (and render_vector) put a text for a set of
      location words: at the top only when 'top' is present; left before
      centre, and right when neither is asked for. */
  function TextPlacement(places: set<string>): (p: Placement)
    ensures p.v == Top <==> "top" in places
    ensures p.h == Left <==> "left" in places
    ensures p.h == Centre <==> "left" !in places && ("center" in places || "centre" in places)
  {
    var v := if "top" in places then Top else Bottom;
    var h := if "left" in places then Left
             else if "center" in places || "centre" in places then Centre
             else Right;
    Placement(v, h)
  }

  /** A location with exactly one of 'top' and 'bottom'. */
  predicate OneVertical(places: set<string>)
  {
    ("top" in places) != ("bottom" in places)
  }

  /** A location with exactly one horizontal word. */
  predicate OneHorizontal(places: set<string>)
  {
    places * HorizontalWords in {{"left"}, {"centre"}, {"center"}, {"right"}}
  }

  /** Every timestamp location __init__ builds names exactly one vertical
      and one horizontal position. */
  lemma StampHasOneOfEach(option: Option<ConfigValue>)
    ensures var ts := TimestampLocation(option);
      ts.Stamp? ==> OneVertical(ts.places) && OneHorizontal(ts.places)
  {
    var ts := TimestampLocation(option);
    if ts.Stamp? {
      var l := if option.None? then DefaultStampOption else Lower(option.value.s);
      assert ts == StampOfWord(l);
      var v := if {l} * VerticalWords == {} then {l} + {"bottom"} else {l};
      assert "top" in v <==> l == "top";
      assert "bottom" in v <==> l != "top";
      assert ts.places * VerticalWords == v * VerticalWords;
      if l in HorizontalWords {
        assert ts.places * HorizontalWords == {l};
      } else {
        assert ts.places * HorizontalWords == {"right"};
      }
    }
  }

  // ---------------------------------------------------------------------
  // Line type

  datatype LineType = Straight | Spoke | Radial

  function LineTypeName(t: LineType): string
  {
    match t
    case Straight => "straight"
    case Spoke => "spoke"
    case Radial => "radial"
  }

  /** line_type (default 'straight'), case-insensitive: '' or 'none' is no
      line; the scatter plot (allowSpoke) also knows 'spoke'; anything
      else is replaced by 'straight'. */
  function ParseLineType(option: Option<string>, allowSpoke: bool): (t: Option<LineType>)
    ensures t == Some(Spoke) ==> allowSpoke
    ensures var w := Lower(if option.Some? then option.value else "straight");
      (t.None? <==> w == "" || w == "none") &&
      (t.Some? && (t.value != Straight || w == "straight") ==> LineTypeName(t.value) == w)
  {
    var w := Lower(if option.Some? then option.value else "straight");
    if w == "" || w == "none" then None
    else if w == "straight" then Some(Straight)
    else if w == "spoke" && allowSpoke then Some(Spoke)
    else if w == "radial" then Some(Radial)
    else Some(Straight)
  }

  /** Every line type the plot accepts is read back from its own name, in
      any combination of case, and the default is a straight line. */
  lemma LineTypeRoundTrip(t: LineType, allowSpoke: bool, written: string)
    requires t == Spoke ==> allowSpoke
    requires Lower(written) == LineTypeName(t)
    ensures ParseLineType(Some(written), allowSpoke) == Some(t)
    ensures ParseLineType(None, allowSpoke) == Some(Straight)
  {
    LowerNoCapitals("straight");
  }

  /** An unknown line type, and 'spoke' where spokes are not drawn, become
      a straight line. */
  lemma UnknownLineTypeIsStraight(s: string, allowSpoke: bool)
    requires Lower(s) !in {"", "none", "straight", "radial"}
    requires allowSpoke ==> Lower(s) != "spoke"
    ensures ParseLineType(Some(s), allowSpoke) == Some(Straight)
  {
  }

  // ---------------------------------------------------------------------
  // Line and marker colours

  /** How a line or marker is coloured: by sample age, by speed band, in a
      fixed colour, or with no colour at all (PIL's default ink). */
  datatype LineColor = ByAge | BySpeed | Fixed(rgb: Rgb) | NoColor

  /** The scatter plot's line_color (default 'age'): 'age', or a colour
      that parses; anything else falls back to 'age'. */
  function ScatterLineColor(getrgb: GetRgb, option: Option<string>): (c: LineColor)
    ensures c.ByAge? || c.Fixed?
    ensures c.Fixed? <==> option.Some? && option.value != "age" && getrgb(option.value).Some?
    ensures c.Fixed? ==> getrgb(option.value) == Some(c.rgb)
  {
    var raw := if option.Some? then option.value else "age";
    if raw == "age" then ByAge
    else
      match ParseColor(getrgb, Some(raw), None)
      case Some(rgb) => Fixed(rgb)
      case None => ByAge
  }

  /** The spiral and trail line_color (acceptsAge) and marker_color, as
      written: 'speed' (the default), for the line also 'age', and
      otherwise parse_color(value, 'speed'). 'speed' is not a colour name,
      so a value that does not parse loses its colour instead of falling
      back to the speed bands. */
  function SpeedPlotColorAsWritten(getrgb: GetRgb, option: Option<string>, acceptsAge: bool): (c: LineColor)
    ensures (getrgb("speed").None? && option.Some? && option.value != "speed" &&
             !(acceptsAge && option.value == "age") && getrgb(option.value).None?) ==> c == NoColor
  {
    var raw := if option.Some? then option.value else "speed";
    if raw == "speed" then BySpeed
    else if acceptsAge && raw == "age" then ByAge
    else
      match ParseColor(getrgb, Some(raw), Some("speed"))
      case Some(rgb) => Fixed(rgb)
      case None => NoColor
  }

  /** The spiral and trail colour options as intended: a value that is not
      a known style and does not parse falls back to the speed bands, as
      the default says, just as the scatter plot falls back to 'age'. */
  function SpeedPlotColor(getrgb: GetRgb, option: Option<string>, acceptsAge: bool): (c: LineColor)
    ensures c != NoColor
    ensures c.ByAge? <==> acceptsAge && option == Some("age")
    ensures c.Fixed? <==> (option.Some? && option.value != "speed" &&
                           !(acceptsAge && option.value == "age") && getrgb(option.value).Some?)
    ensures c.Fixed? ==> getrgb(option.value) == Some(c.rgb)
  {
    var raw := if option.Some? then option.value else "speed";
    if raw == "speed" then BySpeed
    else if acceptsAge && raw == "age" then ByAge
    else
      match getrgb(raw)
      case Some(rgb) => Fixed(rgb)
      case None => BySpeed
  }

  /** A misspelt colour: as written the line is drawn without a colour,
      the intended reading colours it by speed. */
  lemma MisspeltColorLosesSpeedBands(getrgb: GetRgb, s: string, acceptsAge: bool)
    requires getrgb("speed").None? && getrgb(s).None?
    requires s != "speed" && s != "age"
    ensures SpeedPlotColorAsWritten(getrgb, Some(s), acceptsAge) == NoColor
    ensures SpeedPlotColor(getrgb, Some(s), acceptsAge) == BySpeed
  {
  }

  /** Wherever the value is a known style or parses, the two readings
      agree. */
  lemma SpeedPlotColorsAgree(getrgb: GetRgb, option: Option<string>, acceptsAge: bool)
    requires getrgb("speed").None?
    requires option.Some? && option.value != "speed" && !(acceptsAge && option.value == "age") ==>
      getrgb(option.value).Some?
    ensures SpeedPlotColorAsWritten(getrgb, option, acceptsAge) == SpeedPlotColor(getrgb, option, acceptsAge)
  {
  }

  // ---------------------------------------------------------------------
  // Plot type, fields and titles

  datatype PlotType = Rose | Trail | Spiral | Scatter

  function PlotTypeName(t: PlotType): string
  {
    match t
    case Rose => "rose"
    case Trail => "trail"
    case Spiral => "spiral"
    case Scatter => "scatter"
  }

  /** _polar_plot_factory: plot_type (default 'rose'), case-insensitive;
      None stands for the UnsupportedFeature it raises otherwise. */
  function PlotTypeOf(option: Option<string>): (t: Option<PlotType>)
    ensures var w := Lower(if option.Some? then option.value else "rose");
      (t.Some? <==> w in {"rose", "trail", "spiral", "scatter"}) &&
      (t.Some? ==> PlotTypeName(t.value) == w)
  {
    var w := Lower(if option.Some? then option.value else "rose");
    if w == "rose" then Some(Rose)
    else if w == "trail" then Some(Trail)
    else if w == "spiral" then Some(Spiral)
    else if w == "scatter" then Some(Scatter)
    else None
  }

  /** Each plot type is chosen by its name in any case; without the option
      the plot is a wind rose. */
  lemma PlotTypeRoundTrip(t: PlotType, written: string)
    requires Lower(written) == PlotTypeName(t)
    ensures PlotTypeOf(Some(written)) == Some(t)
    ensures PlotTypeOf(None) == Some(Rose)
  {
    LowerNoCapitals("rose");
  }

  datatype Fields = Fields(speed: string, dir: string)

  /** The archive fields genPlots reads for a source: data_type (default
      the source name) windGust pairs with windGustDir, and anything other
      than windSpeed or windGust is replaced by windSpeed and windDir. */
  function PairFields(dataType: Option<string>, source: string): (f: Fields)
    ensures f == Fields("windSpeed", "windDir") || f == Fields("windGust", "windGustDir")
    ensures f.speed == "windGust" <==> (if dataType.Some? then dataType.value else source) == "windGust"
  {
    var sp := if dataType.Some? then dataType.value else source;
    if sp == "windGust" then Fields("windGust", "windGustDir") else Fields("windSpeed", "windDir")
  }

  /** get_legend_title. */
  function LegendTitle(source: Option<string>): (t: string)
    ensures source == Some("windSpeed") ==> t == "Wind Speed"
    ensures source == Some("windGust") ==> t == "Wind Gust"
    ensures source != Some("windSpeed") && source != Some("windGust") ==> t == "Legend"
  {
    if source == Some("windSpeed") then "Wind Speed"
    else if source == Some("windGust") then "Wind Gust"
    else "Legend"
  }

  /** The speed field genPlots hands to add_data always has a proper
      legend title: the generic 'Legend' is never shown. */
  lemma PairedFieldHasTitle(dataType: Option<string>, source: string)
    ensures var f := PairFields(dataType, source);
      LegendTitle(Some(f.speed)) == (if f.speed == "windGust" then "Wind Gust" else "Wind Speed")
  {
  }

  // ---------------------------------------------------------------------
  // Skipping fresh plots

  /** skipThisPlot, with the file system read beforehand: whether the image
      exists and how old it is (report time less modification time), in
      seconds. */
  function SkipThisPlot(period: Option<int>, imageExists: bool, age: real): (skip: bool)
    ensures period.None? ==> skip
    ensures period.Some? && !imageExists ==> !skip
    ensures period.Some? && age >= 86400.0 ==> !skip
    ensures period.Some? && period.value < 604800 ==> !skip
    ensures period.Some? && period.value > 2592000 && imageExists && age < 86400.0 ==> skip
    ensures period.Some? && period.value >= 604800 && imageExists && age < 3600.0 ==> skip
    ensures period.Some? && skip ==>
      imageExists && ((period.value > 2592000 && age < 86400.0) || (period.value >= 604800 && age < 3600.0))
  {
    if period.None? then true
    else if !imageExists then false
    else if age >= 86400.0 then false
    else if period.value > 2592000 && age < 86400.0 then true
    else if period.value >= 604800 && age < 3600.0 then true
    else false
  }
}
