/** Colours: parsing a configured colour with a fallback, the linear colour
    transition used to fade scatter and spiral points by age, and the
    palette of seven band colours every plot starts from. */
module Colors {
  import opened Py

  type Channel = x: int | 0 <= x <= 255

  datatype Rgb = Rgb(red: Channel, green: Channel, blue: Channel)

  /** Pillow's ImageColor.getrgb(): a colour word, '#rrggbb', 'rgb(...)' and
      the like are turned into a triple; anything else raises ValueError,
      modelled as None. */
  type GetRgb = string -> Option<Rgb>

  predicate Parses(getrgb: GetRgb, color: Option<string>)
  {
    color.Some? && getrgb(color.value).Some?
  }

  /** parse_color(color, default): the colour itself if it parses, else the
      default parsed on its own (with no further fallback), else None.
      A missing option (None) never parses. */
  function ParseColor(getrgb: GetRgb, color: Option<string>, default: Option<string>): (r: Option<Rgb>)
    ensures r.Some? <==> Parses(getrgb, color) || Parses(getrgb, default)
    ensures Parses(getrgb, color) ==> r == getrgb(color.value)
    ensures !Parses(getrgb, color) && Parses(getrgb, default) ==> r == getrgb(default.value)
    decreases if default.Some? then 1 else 0
  {
    if Parses(getrgb, color) then getrgb(color.value)
    else if default.None? then None
    else ParseColor(getrgb, default, None)
  }

  /** A colour that is given and parses is never replaced by the default. */
  lemma ParseColorPrefersColor(getrgb: GetRgb, color: string, default: Option<string>)
    requires getrgb(color).Some?
    ensures ParseColor(getrgb, Some(color), default) == getrgb(color)
  {
  }

  /** The seven colours of the speed bands, calm to strongest. */
  const DefaultPlotColors: seq<string> :=
    ["lightblue", "blue", "midnightblue", "forestgreen", "limegreen", "green", "greenyellow"]

  predicate Distinct<T(==)>(s: seq<T>)
  {
    forall i, j :: 0 <= i < j < |s| ==> s[i] != s[j]
  }

  lemma DefaultPlotColorsDistinct()
    ensures |DefaultPlotColors| == 7
    ensures Distinct(DefaultPlotColors)
  {
  }

  /** The configured colours that getrgb() accepts, in their order,
      duplicates kept. */
  function ValidColors(getrgb: GetRgb, configured: seq<string>): (r: seq<string>)
    ensures |r| <= |configured|
    ensures forall i :: 0 <= i < |r| ==> getrgb(r[i]).Some? && r[i] in configured
    ensures forall c :: c in configured && getrgb(c).Some? ==> c in r
  {
    if configured == [] then []
    else
      var last := configured[|configured| - 1];
      ValidColors(getrgb, configured[..|configured| - 1]) + (if getrgb(last).Some? then [last] else [])
  }

  /** One colour is kept exactly when getrgb() accepts it. */
  lemma ValidColorsSingle(getrgb: GetRgb, c: string)
    ensures ValidColors(getrgb, [c]) == if getrgb(c).Some? then [c] else []
  {
  }

  /** The filter distributes over concatenation, so it keeps the accepted
      colours in their configured order. */
  lemma {:induction false} ValidColorsAppend(getrgb: GetRgb, a: seq<string>, b: seq<string>)
    ensures ValidColors(getrgb, a + b) == ValidColors(getrgb, a) + ValidColors(getrgb, b)
  {
    if b == [] {
      assert a + b == a;
    } else {
      var b' := b[..|b| - 1];
      var last := b[|b| - 1];
      assert (a + b)[..|a + b| - 1] == a + b';
      assert (a + b)[|a + b| - 1] == last;
      ValidColorsAppend(getrgb, a, b');
    }
  }

  /** The defaults that do not already occur in colors, in their order. */
  function MissingFrom(defaults: seq<string>, colors: seq<string>): (r: seq<string>)
    ensures |r| <= |defaults|
    ensures forall i :: 0 <= i < |r| ==> r[i] in defaults && r[i] !in colors
  {
    if defaults == [] then []
    else
      var last := defaults[|defaults| - 1];
      MissingFrom(defaults[..|defaults| - 1], colors) + (if last in colors then [] else [last])
  }

  /** The first n elements, or all of them when there are fewer. */
  function Take<T>(n: nat, s: seq<T>): (r: seq<T>)
    ensures |r| == if n <= |s| then n else |s|
  {
    if n <= |s| then s[..n] else s
  }

  /** Walking the defaults in order, appending each one not yet in the
      list, and stopping as soon as there are seven colours. */
  function TopUp(colors: seq<string>, defaults: seq<string>): seq<string>
    decreases |defaults|
  {
    if |colors| >= 7 || defaults == [] then colors
    else
      var c := defaults[0];
      TopUp(colors + (if c in colors then [] else [c]), defaults[1..])
  }

  /** The band colours of a plot: the configured colours that parse, topped
      up from the defaults. */
  function Palette(getrgb: GetRgb, configured: seq<string>): seq<string>
  {
    TopUp(ValidColors(getrgb, configured), DefaultPlotColors)
  }

  /** Splitting the defaults splits the missing ones the same way. */
  lemma {:induction false} MissingFromSplit(defaults: seq<string>, colors: seq<string>, j: nat)
    requires j <= |defaults|
    ensures MissingFrom(defaults, colors) == MissingFrom(defaults[..j], colors) + MissingFrom(defaults[j..], colors)
  {
    if j < |defaults| {
      var n := |defaults| - 1;
      MissingFromSplit(defaults[..n], colors, j);
      assert defaults[..n][..j] == defaults[..j];
      assert defaults[j..][..|defaults[j..]| - 1] == defaults[..n][j..];
    } else {
      assert defaults[..j] == defaults;
      assert defaults[j..] == [];
    }
  }

  /** With distinct defaults, every colour added to the list removes at most
      one default from those still missing. */
  lemma {:induction false} MissingFromAppend(defaults: seq<string>, colors: seq<string>, x: string)
    requires Distinct(defaults)
    ensures |MissingFrom(defaults, colors + [x])| >= |MissingFrom(defaults, colors)| - 1
  {
    if defaults != [] {
      var n := |defaults| - 1;
      var last := defaults[n];
      MissingFromAppend(defaults[..n], colors, x);
      if last == x {
        assert x !in defaults[..n];
        MissingFromIgnores(defaults[..n], colors, x);
      }
    }
  }

  /** Adding a colour that is not a default changes nothing about which
      defaults are missing. */
  lemma {:induction false} MissingFromIgnores(defaults: seq<string>, colors: seq<string>, x: string)
    requires x !in defaults
    ensures MissingFrom(defaults, colors + [x]) == MissingFrom(defaults, colors)
  {
    if defaults != [] {
      var n := |defaults| - 1;
      assert defaults[n] != x;
      MissingFromIgnores(defaults[..n], colors, x);
    }
  }

  /** At most |colors| of the distinct defaults can already be present. */
  lemma {:induction false} MissingFromLength(defaults: seq<string>, colors: seq<string>)
    requires Distinct(defaults)
    ensures |MissingFrom(defaults, colors)| >= |defaults| - |colors|
  {
    if colors == [] {
      MissingFromNone(defaults);
    } else {
      var n := |colors| - 1;
      MissingFromLength(defaults, colors[..n]);
      MissingFromAppend(defaults, colors[..n], colors[n]);
      assert colors[..n] + [colors[n]] == colors;
    }
  }

  lemma {:induction false} MissingFromNone(defaults: seq<string>)
    ensures MissingFrom(defaults, []) == defaults
  {
    if defaults != [] {
      MissingFromNone(defaults[..|defaults| - 1]);
    }
  }

  /** Part way through the walk over the defaults, the list holds the valid
      colours followed by the defaults missing from them so far. */
  lemma {:induction false} TopUpFrom(valid: seq<string>, defaults: seq<string>, j: nat)
    requires Distinct(defaults)
    requires j <= |defaults|
    requires |valid| + |MissingFrom(defaults[..j], valid)| < 7
    ensures TopUp(valid + MissingFrom(defaults[..j], valid), defaults[j..]) ==
      valid + Take(7 - |valid|, MissingFrom(defaults, valid))
    decreases |defaults| - j
  {
    var sofar := MissingFrom(defaults[..j], valid);
    MissingFromSplit(defaults, valid, j);
    if j == |defaults| {
      assert defaults[..j] == defaults;
    } else {
      var next := MissingFrom(defaults[..j + 1], valid);
      TopUpStep(valid, defaults, j);
      if |valid| + |next| < 7 {
        TopUpFrom(valid, defaults, j + 1);
      } else {
        MissingFromSplit(defaults, valid, j + 1);
        var rest := MissingFrom(defaults[j + 1..], valid);
        assert (next + rest)[..|next|] == next;
      }
    }
  }

  /** One default of the walk: it is appended exactly when it is not
      among the valid colours, and never comes twice. */
  lemma TopUpStep(valid: seq<string>, defaults: seq<string>, j: nat)
    requires Distinct(defaults)
    requires j < |defaults|
    requires |valid| + |MissingFrom(defaults[..j], valid)| < 7
    ensures var next := MissingFrom(defaults[..j + 1], valid);
      |next| <= |MissingFrom(defaults[..j], valid)| + 1 &&
      TopUp(valid + MissingFrom(defaults[..j], valid), defaults[j..]) == TopUp(valid + next, defaults[j + 1..])
  {
    var sofar := MissingFrom(defaults[..j], valid);
    var c := defaults[j];
    assert c !in defaults[..j];
    assert c !in sofar;
    assert defaults[..j + 1][..j] == defaults[..j];
    var next := MissingFrom(defaults[..j + 1], valid);
    assert next == sofar + (if c in valid then [] else [c]);
    assert (valid + sofar) + (if c in valid + sofar then [] else [c]) == valid + next;
    assert defaults[j..][1..] == defaults[j + 1..];
  }

  /** Closed form of the top-up: a list of fewer than seven colours is
      followed by the first defaults not in it. */
  lemma TopUpClosedForm(valid: seq<string>, defaults: seq<string>)
    requires Distinct(defaults)
    ensures TopUp(valid, defaults) ==
      if |valid| >= 7 then valid
      else valid + Take(7 - |valid|, MissingFrom(defaults, valid))
  {
    if |valid| < 7 {
      assert defaults[..0] == [];
      assert defaults[0..] == defaults;
      assert valid + [] == valid;
      TopUpFrom(valid, defaults, 0);
    }
  }

  /** Topping up from seven distinct defaults always reaches seven colours,
      and a list that already has seven or more is left alone. */
  lemma TopUpLength(valid: seq<string>, defaults: seq<string>)
    requires Distinct(defaults) && |defaults| == 7
    ensures |TopUp(valid, defaults)| == if |valid| >= 7 then |valid| else 7
  {
    TopUpClosedForm(valid, defaults);
    if |valid| < 7 {
      MissingFromLength(defaults, valid);
    }
  }

  /** The topped-up list starts with the given colours; every colour after
      them is a default that is not among them, and none comes twice. */
  lemma TopUpMembers(valid: seq<string>, defaults: seq<string>)
    requires Distinct(defaults)
    ensures var p := TopUp(valid, defaults);
      |p| >= |valid| && p[..|valid|] == valid &&
      forall i :: |valid| <= i < |p| ==> p[i] in defaults && p[i] !in valid
  {
    TopUpClosedForm(valid, defaults);
  }

  /** The palette has at least the seven colours the speed bands need, and
      more only when more parsable colours were configured. */
  lemma PaletteLength(getrgb: GetRgb, configured: seq<string>)
    ensures var valid := ValidColors(getrgb, configured);
      |Palette(getrgb, configured)| == if |valid| >= 7 then |valid| else 7
  {
    DefaultPlotColorsDistinct();
    TopUpLength(ValidColors(getrgb, configured), DefaultPlotColors);
  }

  /** The palette computed as the plot initialiser does: keep each configured
      colour that parses, then, when fewer than seven remain, walk the
      defaults appending those not yet in the list and stop at seven. */
  method PlotColors(getrgb: GetRgb, configured: seq<string>) returns (colors: seq<string>)
    ensures colors == Palette(getrgb, configured)
  {
    colors := [];
    var i := 0;
    while i < |configured|
      invariant 0 <= i <= |configured|
      invariant colors == ValidColors(getrgb, configured[..i])
    {
      assert configured[..i + 1][..i] == configured[..i];
      if getrgb(configured[i]).Some? {
        colors := colors + [configured[i]];
      }
      i := i + 1;
    }
    assert configured[..i] == configured;
    colors := AddDefaults(colors, DefaultPlotColors);
  }

  /** The second half of the initialiser's palette loop. */
  method AddDefaults(valid: seq<string>, defaults: seq<string>) returns (colors: seq<string>)
    ensures colors == TopUp(valid, defaults)
  {
    colors := valid;
    if |colors| < 7 {
      var j := 0;
      while j < |defaults|
        invariant 0 <= j <= |defaults|
        invariant |colors| < 7
        invariant TopUp(colors, defaults[j..]) == TopUp(valid, defaults)
      {
        var c := defaults[j];
        ghost var before := colors;
        if c !in colors {
          colors := colors + [c];
        }
        assert TopUp(before, defaults[j..]) == TopUp(colors, defaults[j + 1..]) by {
          assert defaults[j..][0] == c;
          assert defaults[j..][1..] == defaults[j + 1..];
          assert colors == before + (if c in before then [] else [c]);
        }
        if |colors| >= 7 {
          break;
        }
        j := j + 1;
      }
    }
  }

  /** The linear transition from s (at p = 0) to e (at p = 1). */
  function Mix(s: real, e: real, p: real): real
  {
    (1.0 - p) * s + p * e
  }

  /** One channel of color_trans(): the start and end channels mixed
      linearly, and rounded half up by int(x + 0.5). */
  function TransChannel(start: Channel, end: Channel, p: real): (c: Channel)
    requires 0.0 <= p <= 1.0
    ensures start <= end ==> start <= c <= end
    ensures end <= start ==> end <= c <= start
    ensures -0.5 < c as real - Mix(start as real, end as real, p) <= 0.5
  {
    MixBetween(start as real, end as real, p);
    Trunc(Mix(start as real, end as real, p) + 0.5)
  }

  /** A mix with p in [0, 1] lies between its two ends. */
  lemma MixBetween(s: real, e: real, p: real)
    requires 0.0 <= p <= 1.0
    ensures s <= e ==> s <= Mix(s, e, p) <= e
    ensures e <= s ==> e <= Mix(s, e, p) <= s
  {
    var d := e - s;
    MixShifted(s, e, p);
    if s <= e {
      ProductNonNegative(p, d);
      ProductNonNegative(1.0 - p, d);
      Distribute(p, d);
    } else {
      ProductNonNegative(p, -d);
      ProductNonNegative(1.0 - p, -d);
      Distribute(p, -d);
    }
  }

  /** The mix is the start moved by the proportion of the difference. */
  lemma MixShifted(s: real, e: real, p: real)
    ensures Mix(s, e, p) == s + p * (e - s)
  {
  }

  lemma Distribute(p: real, d: real)
    ensures (1.0 - p) * d == d - p * d
    ensures p * -d == -(p * d)
  {
  }

  /** The ends of the transition are the two colours themselves. */
  lemma TransEnds(start: Channel, end: Channel)
    ensures TransChannel(start, end, 0.0) == start
    ensures TransChannel(start, end, 1.0) == end
  {
  }

  function HexDigit(n: int): (c: char)
    requires 0 <= n < 16
  {
    if n < 10 then ('0' as int + n) as char else ('a' as int + n - 10) as char
  }

  /** '%02x' of a channel: two lower-case hexadecimal digits. */
  function Hex02(n: Channel): (s: string)
    ensures |s| == 2
  {
    [HexDigit(n / 16), HexDigit(n % 16)]
  }

  /** The colour a transition returns, in '#rrggbb' form. */
  function ColorTrans(start: Rgb, end: Rgb, p: real): (s: string)
    requires 0.0 <= p <= 1.0
    ensures |s| == 7 && s[0] == '#'
  {
    "#" + Hex02(TransChannel(start.red, end.red, p))
        + Hex02(TransChannel(start.green, end.green, p))
        + Hex02(TransChannel(start.blue, end.blue, p))
  }

  function HexValue(c: char): Option<int>
  {
    if '0' <= c <= '9' then Some(c as int - '0' as int)
    else if 'a' <= c <= 'f' then Some(c as int - 'a' as int + 10)
    else if 'A' <= c <= 'F' then Some(c as int - 'A' as int + 10)
    else None
  }

  /** Reading two hexadecimal digits back. */
  function ParseHex02(s: string): (r: Option<Channel>)
    requires |s| == 2
    ensures r.Some? <==> HexValue(s[0]).Some? && HexValue(s[1]).Some?
  {
    match (HexValue(s[0]), HexValue(s[1]))
    case (Some(hi), Some(lo)) => Some(hi * 16 + lo)
    case _ => None
  }

  /** How a '#rrggbb' string reads as a colour. */
  function ParseHexColor(s: string): Option<Rgb>
  {
    if |s| != 7 || s[0] != '#' then None
    else
      match (ParseHex02(s[1..3]), ParseHex02(s[3..5]), ParseHex02(s[5..7]))
      case (Some(r), Some(g), Some(b)) => Some(Rgb(r, g, b))
      case _ => None
  }

  lemma Hex02RoundTrip(n: Channel)
    ensures ParseHex02(Hex02(n)) == Some(n)
  {
    assert HexValue(HexDigit(n / 16)) == Some(n / 16);
    assert HexValue(HexDigit(n % 16)) == Some(n % 16);
  }

  /** The colour string a transition produces reads back as exactly the
      mixed colour. */
  lemma ColorTransRoundTrip(start: Rgb, end: Rgb, p: real)
    requires 0.0 <= p <= 1.0
    ensures ParseHexColor(ColorTrans(start, end, p)) ==
      Some(Rgb(TransChannel(start.red, end.red, p),
               TransChannel(start.green, end.green, p),
               TransChannel(start.blue, end.blue, p)))
  {
    var r := TransChannel(start.red, end.red, p);
    var g := TransChannel(start.green, end.green, p);
    var b := TransChannel(start.blue, end.blue, p);
    var s := ColorTrans(start, end, p);
    assert s[1..3] == Hex02(r);
    assert s[3..5] == Hex02(g);
    assert s[5..7] == Hex02(b);
    Hex02RoundTrip(r);
    Hex02RoundTrip(g);
    Hex02RoundTrip(b);
  }
}
