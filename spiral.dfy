/** The spiral plot of the current revision (PolarWindSpiralPlot): the
    samples are laid out on a spiral, one equal step of radius per sample,
    from the oldest (or the newest) at the centre to the plot edge; the
    rings are labelled with the time of the sample that falls on them, and
    a label saying which end is in the centre is kept clear of the
    timestamp. */
module Spiral {
  import opened Py
  import opened Colors
  import opened Grid
  import opened Config
  import opened Plot
  import Scatter

  // ---------------------------------------------------------------------
  // The trace

  /** How many radius steps out from the centre sample i is drawn: with
      the newest in the centre the last sample is at the centre. */
  function Scale(newest: bool, n: nat, i: nat): int
  {
    if newest then n - 1 - i else i
  }

  /** The sample visited k-th: render_plot walks the samples from the
      centre of the spiral outwards. */
  function Visit(newest: bool, n: nat, k: nat): int
  {
    if newest then n - 1 - k else k
  }

  /** Radius of a sample drawn `scale` steps out: scale * R / (n - 1), and
      the centre when there is a single sample. */
  function SpiralRadius(n: nat, plotRadius: real, scale: int): real
  {
    if n > 1 then scale as real * plotRadius / (n - 1) as real else 0.0
  }

  /** Steps 0 to n - 1 run from the centre to the plot edge, never
      inwards. */
  lemma SpiralRadiusOrdered(n: nat, plotRadius: real, s1: int, s2: int)
    requires plotRadius >= 0.0 && 0 <= s1 <= s2 <= n - 1
    ensures 0.0 <= SpiralRadius(n, plotRadius, s1) <= SpiralRadius(n, plotRadius, s2) <= plotRadius
    ensures SpiralRadius(n, plotRadius, 0) == 0.0
    ensures n > 1 ==> SpiralRadius(n, plotRadius, n - 1) == plotRadius
  {
    if n > 1 {
      var d := (n - 1) as real;
      RadiusIsSteps(n, plotRadius, s1);
      RadiusIsSteps(n, plotRadius, s2);
      RadiusIsSteps(n, plotRadius, n - 1);
      RadiusIsSteps(n, plotRadius, 0);
      SharesOrdered(plotRadius, d, 0.0, s1 as real);
      SharesOrdered(plotRadius, d, s1 as real, s2 as real);
      SharesOrdered(plotRadius, d, s2 as real, d);
      WholeShare(plotRadius, d);
    }
  }

  /** Each step adds the same share R / (n - 1) of the radius. */
  lemma RadiusIsSteps(n: nat, plotRadius: real, s: int)
    requires n > 1
    ensures SpiralRadius(n, plotRadius, s) == Share(plotRadius, (n - 1) as real, s as real)
  {
  }

  /** One drawn point of the spiral: the sample, its radius and its
      bearing. */
  datatype SpiralPoint = SpiralPoint(sample: nat, radius: real, bearing: real)

  /** The points render_plot draws after visiting k samples: a sample
      without a direction is skipped. */
  function Trace(newest: bool, dirs: seq<Option<real>>, n: nat, plotRadius: real, k: nat): (pts: seq<SpiralPoint>)
    requires k <= n <= |dirs|
    ensures |pts| <= k
  {
    if k == 0 then []
    else
      var prev := Trace(newest, dirs, n, plotRadius, k - 1);
      var i := Visit(newest, n, k - 1);
      if dirs[i].Some? then prev + [SpiralPoint(i, SpiralRadius(n, plotRadius, k - 1), dirs[i].value)]
      else prev
  }

  /** The loop of render_plot (drawing left out): it visits n samples from
      the centre of the spiral outwards and keeps those it draws. */
  method TracePoints(newest: bool, dirs: seq<Option<real>>, n: nat, plotRadius: real) returns (pts: seq<SpiralPoint>)
    requires n <= |dirs|
    ensures pts == Trace(newest, dirs, n, plotRadius, n)
  {
    var start: int, stop: int, step: int := 0, n, 1;
    if newest {
      start, stop, step := n - 1, -1, -1;
    }
    pts := [];
    var i := start;
    ghost var k := 0;
    while i != stop
      invariant 0 <= k <= n && i == Visit(newest, n, k)
      invariant stop == Visit(newest, n, n) && step == (if newest then -1 else 1)
      invariant pts == Trace(newest, dirs, n, plotRadius, k)
      decreases n - k
    {
      var scale := if newest then n - 1 - i else i;
      assert scale == k;
      var radius := SpiralRadius(n, plotRadius, scale);
      TraceStep(newest, dirs, n, plotRadius, k);
      if dirs[i].Some? {
        pts := pts + [SpiralPoint(i, radius, dirs[i].value)];
      }
      i := i + step;
      k := k + 1;
    }
  }

  /** Visit k of the loop either draws sample Visit(k) at the radius of
      step k or skips it. */
  lemma TraceStep(newest: bool, dirs: seq<Option<real>>, n: nat, plotRadius: real, k: nat)
    requires k < n <= |dirs|
    ensures var i := Visit(newest, n, k);
      Trace(newest, dirs, n, plotRadius, k + 1) ==
        if dirs[i].Some? then Trace(newest, dirs, n, plotRadius, k) + [SpiralPoint(i, SpiralRadius(n, plotRadius, k), dirs[i].value)]
        else Trace(newest, dirs, n, plotRadius, k)
  {
  }

  /** The trace has every sample with a direction, in time order (reversed
      when the newest is in the centre), and it winds outwards: each point
      is at the radius of its own time step, between the centre and the
      plot edge, and no point is nearer the centre than the one before. */
  lemma {:induction false} TraceWindsOutwards(newest: bool, dirs: seq<Option<real>>, n: nat, plotRadius: real, k: nat)
    requires k <= n <= |dirs| && plotRadius >= 0.0
    ensures TraceShaped(newest, dirs, n, plotRadius, k, Trace(newest, dirs, n, plotRadius, k))
  {
    if k > 0 {
      var prev := Trace(newest, dirs, n, plotRadius, k - 1);
      TraceWindsOutwards(newest, dirs, n, plotRadius, k - 1);
      var i := Visit(newest, n, k - 1);
      assert Scale(newest, n, i) == k - 1;
      if dirs[i].Some? {
        var p := SpiralPoint(i, SpiralRadius(n, plotRadius, k - 1), dirs[i].value);
        assert Trace(newest, dirs, n, plotRadius, k) == prev + [p];
        TraceGrows(newest, dirs, n, plotRadius, k, prev, p);
      } else {
        assert Trace(newest, dirs, n, plotRadius, k) == prev;
        TraceSkips(newest, dirs, n, plotRadius, k, prev);
      }
    }
  }

  /** One step of TraceWindsOutwards: step k - 1 has no direction. */
  lemma TraceSkips(newest: bool, dirs: seq<Option<real>>, n: nat, plotRadius: real, k: nat, prev: seq<SpiralPoint>)
    requires 0 < k <= n <= |dirs|
    requires TraceShaped(newest, dirs, n, plotRadius, k - 1, prev)
    requires dirs[Visit(newest, n, k - 1)].None?
    ensures TraceShaped(newest, dirs, n, plotRadius, k, prev)
  {
    forall i' | 0 <= i' < n && 0 <= Scale(newest, n, i') < k && dirs[i'].Some?
      ensures exists j :: 0 <= j < |prev| && prev[j].sample == i'
    {
      assert Scale(newest, n, i') != k - 1;
    }
  }

  /** One step of TraceWindsOutwards: appending the point of step k - 1. */
  lemma TraceGrows(newest: bool, dirs: seq<Option<real>>, n: nat, plotRadius: real, k: nat,
                   prev: seq<SpiralPoint>, p: SpiralPoint)
    requires 0 < k <= n <= |dirs| && plotRadius >= 0.0
    requires TraceShaped(newest, dirs, n, plotRadius, k - 1, prev)
    requires p.sample == Visit(newest, n, k - 1) && dirs[p.sample] == Some(p.bearing)
    requires p.radius == SpiralRadius(n, plotRadius, k - 1)
    ensures TraceShaped(newest, dirs, n, plotRadius, k, prev + [p])
  {
    TraceGrowsPoints(newest, dirs, n, plotRadius, k, prev, p);
    TraceGrowsOrdered(newest, dirs, n, plotRadius, k, prev, p);
    TraceGrowsComplete(newest, dirs, n, plotRadius, k, prev, p);
  }

  /** Appending the point of step k - 1 keeps every point a sample with a
      direction among the first k steps, at the radius of its step and
      inside the plot. */
  lemma TraceGrowsPoints(newest: bool, dirs: seq<Option<real>>, n: nat, plotRadius: real, k: nat,
                         prev: seq<SpiralPoint>, p: SpiralPoint)
    requires 0 < k <= n <= |dirs| && plotRadius >= 0.0
    requires TraceShaped(newest, dirs, n, plotRadius, k - 1, prev)
    requires p.sample == Visit(newest, n, k - 1) && dirs[p.sample] == Some(p.bearing)
    requires p.radius == SpiralRadius(n, plotRadius, k - 1)
    ensures var pts := prev + [p];
      forall j :: 0 <= j < |pts| ==>
        pts[j].sample < n && dirs[pts[j].sample] == Some(pts[j].bearing) &&
        0 <= Scale(newest, n, pts[j].sample) < k &&
        pts[j].radius == SpiralRadius(n, plotRadius, Scale(newest, n, pts[j].sample)) &&
        0.0 <= pts[j].radius <= plotRadius
  {
    var pts := prev + [p];
    assert Scale(newest, n, p.sample) == k - 1;
    SpiralRadiusOrdered(n, plotRadius, k - 1, k - 1);
    forall j | 0 <= j < |pts|
      ensures pts[j].sample < n && dirs[pts[j].sample] == Some(pts[j].bearing) &&
        0 <= Scale(newest, n, pts[j].sample) < k &&
        pts[j].radius == SpiralRadius(n, plotRadius, Scale(newest, n, pts[j].sample)) &&
        0.0 <= pts[j].radius <= plotRadius
    {
      if j < |prev| {
        assert pts[j] == prev[j];
      } else {
        assert pts[j] == p;
      }
    }
  }

  /** Appending the point of step k - 1 keeps the steps increasing and the
      radii non-decreasing along the trace. */
  lemma TraceGrowsOrdered(newest: bool, dirs: seq<Option<real>>, n: nat, plotRadius: real, k: nat,
                          prev: seq<SpiralPoint>, p: SpiralPoint)
    requires 0 < k <= n <= |dirs| && plotRadius >= 0.0
    requires TraceShaped(newest, dirs, n, plotRadius, k - 1, prev)
    requires p.sample == Visit(newest, n, k - 1)
    requires p.radius == SpiralRadius(n, plotRadius, k - 1)
    ensures var pts := prev + [p];
      forall a, b :: 0 <= a < b < |pts| ==>
        Scale(newest, n, pts[a].sample) < Scale(newest, n, pts[b].sample) && pts[a].radius <= pts[b].radius
  {
    var pts := prev + [p];
    assert Scale(newest, n, p.sample) == k - 1;
    forall a, b | 0 <= a < b < |pts|
      ensures Scale(newest, n, pts[a].sample) < Scale(newest, n, pts[b].sample) && pts[a].radius <= pts[b].radius
    {
      assert pts[a] == prev[a];
      if b < |prev| {
        assert pts[b] == prev[b];
      } else {
        assert pts[b] == p;
        SpiralRadiusOrdered(n, plotRadius, Scale(newest, n, prev[a].sample), k - 1);
      }
    }
  }

  /** Appending the point of step k - 1 keeps every sample with a
      direction among the first k steps on the trace. */
  lemma TraceGrowsComplete(newest: bool, dirs: seq<Option<real>>, n: nat, plotRadius: real, k: nat,
                           prev: seq<SpiralPoint>, p: SpiralPoint)
    requires 0 < k <= n <= |dirs|
    requires TraceShaped(newest, dirs, n, plotRadius, k - 1, prev)
    requires p.sample == Visit(newest, n, k - 1)
    ensures var pts := prev + [p];
      forall i :: 0 <= i < n && 0 <= Scale(newest, n, i) < k && dirs[i].Some? ==>
        exists j :: 0 <= j < |pts| && pts[j].sample == i
  {
    var pts := prev + [p];
    forall i' | 0 <= i' < n && 0 <= Scale(newest, n, i') < k && dirs[i'].Some?
      ensures exists j :: 0 <= j < |pts| && pts[j].sample == i'
    {
      if Scale(newest, n, i') == k - 1 {
        assert pts[|prev|].sample == i';
      } else {
        var j :| 0 <= j < |prev| && prev[j].sample == i';
        assert pts[j].sample == i';
      }
    }
  }

  /** What the trace looks like after k visits: each point is a sample
      with a direction, at the radius of its own step, between the centre
      and the edge; the steps strictly increase along the trace and the
      radii never decrease; and no sample with a direction among the first
      k steps is missing. */
  predicate TraceShaped(newest: bool, dirs: seq<Option<real>>, n: nat, plotRadius: real, k: nat, pts: seq<SpiralPoint>)
    requires n <= |dirs|
  {
    (forall j :: 0 <= j < |pts| ==> pts[j].sample < n && dirs[pts[j].sample] == Some(pts[j].bearing)) &&
    (forall j :: 0 <= j < |pts| ==> 0 <= Scale(newest, n, pts[j].sample) < k) &&
    (forall j :: 0 <= j < |pts| ==> pts[j].radius == SpiralRadius(n, plotRadius, Scale(newest, n, pts[j].sample))) &&
    (forall j :: 0 <= j < |pts| ==> 0.0 <= pts[j].radius <= plotRadius) &&
    (forall a, b :: 0 <= a < b < |pts| ==>
       Scale(newest, n, pts[a].sample) < Scale(newest, n, pts[b].sample) && pts[a].radius <= pts[b].radius) &&
    (forall i :: 0 <= i < n && 0 <= Scale(newest, n, i) < k && dirs[i].Some? ==>
       exists j :: 0 <= j < |pts| && pts[j].sample == i)
  }

  // ---------------------------------------------------------------------
  // Ring labels

  /** The share ring r of `rings` takes of m steps: m * r / rings. */
  function RingShare(m: int, rings: int, r: int): real
    requires rings > 0
  {
    (m * r) as real / rings as real
  }

  /** get_ring_label: the sample whose time labels ring `ring`, counted
      from the centre, rounded half to even. Ring 0 is the centre. */
  function RingSample(newest: bool, n: nat, rings: int, ring: int): int
    requires rings > 0
  {
    if newest then RoundHalfEven(RingShare(n - 1, rings, rings - ring))
    else RoundHalfEven(RingShare(n - 1, rings, ring))
  }

  /** The labelled sample exists, and it is the one drawn nearest the
      ring: its position on the spiral is within half a step of the ring's
      share of the n - 1 steps. The centre (ring 0) shows the sample at the
      centre of the spiral, the outer ring the one at the edge. */
  lemma RingSampleNearRing(newest: bool, n: nat, rings: int, ring: int)
    requires n >= 1 && rings > 0 && 0 <= ring <= rings
    ensures var s := RingSample(newest, n, rings, ring);
      0 <= s <= n - 1 &&
      -0.5 <= Scale(newest, n, s) as real - RingShare(n - 1, rings, ring) <= 0.5
    ensures RingSample(newest, n, rings, 0) == (if newest then n - 1 else 0)
    ensures RingSample(newest, n, rings, rings) == (if newest then 0 else n - 1)
  {
    var share := RingShare(n - 1, rings, ring);
    var rest := RingShare(n - 1, rings, rings - ring);
    ShareWithin(n - 1, rings, ring);
    ShareWithin(n - 1, rings, rings - ring);
    ShareComplement(n - 1, rings, ring);
    RoundStaysInRange(share, 0, n - 1);
    RoundStaysInRange(rest, 0, n - 1);
    ShareEnds(n - 1, rings);
    RoundOfWhole(n - 1);
    RoundOfWhole(0);
  }

  lemma ShareWithin(m: nat, rings: int, r: int)
    requires rings > 0 && 0 <= r <= rings
    ensures 0.0 <= RingShare(m, rings, r) <= m as real
  {
    assert m * r <= m * rings;
    assert (m * r) as real <= m as real * rings as real;
    ScaleCancelLe((m * r) as real / rings as real, m as real, rings as real);
  }

  /** The rings outside ring r take the rest of the steps. */
  lemma ShareComplement(m: int, rings: int, r: int)
    requires rings > 0
    ensures RingShare(m, rings, rings - r) == m as real - RingShare(m, rings, r)
  {
    assert (m * (rings - r)) as real == m as real * rings as real - (m * r) as real;
  }

  /** Ring 0 takes no step, the outer ring all of them. */
  lemma ShareEnds(m: int, rings: int)
    requires rings > 0
    ensures RingShare(m, rings, 0) == 0.0 && RingShare(m, rings, rings) == m as real
  {
  }

  lemma ScaleCancelLe(a: real, b: real, w: real)
    requires w > 0.0 && a * w <= b * w
    ensures a <= b
  {
    if a > b {
      ScaleLt(b, a, w);
    }
  }

  // ---------------------------------------------------------------------
  // Direction label

  /** render_spiral_direction_label: opposite the timestamp horizontally
      and level with it, except that beside a centred timestamp there is no
      room, so the label takes the centre of the other edge. Without a
      timestamp it goes bottom right. A location that cannot be read never
      gets this far (__init__ fails); it is placed as no timestamp. */
  function DirectionLabelPlacement(ts: StampLocation): (p: Placement)
    ensures ts.Stamp? && "left" in ts.places ==> p.h == Right
    ensures ts.Stamp? && "left" !in ts.places && ("center" in ts.places || "centre" in ts.places) ==> p.h == Centre
    ensures !ts.Stamp? ==> p == Placement(Bottom, Right)
  {
    match ts
    case Stamp(places) =>
      var sameVert := !("left" !in places && ("center" in places || "centre" in places));
      var h := if "left" in places then Right else if !sameVert then Centre else Left;
      var top := ("top" in places && sameVert) || ("bottom" in places && !sameVert);
      Placement(if top then Top else Bottom, h)
    case _ => Placement(Bottom, Right)
  }

  /** The spiral direction label never shares its place with the
      timestamp. */
  lemma DirectionLabelAvoidsTimestamp(places: set<string>)
    requires OneVertical(places)
    ensures DirectionLabelPlacement(Stamp(places)) != TextPlacement(places)
  {
  }

  /** The same, for every timestamp location __init__ can build. */
  lemma DirectionLabelAvoidsConfiguredTimestamp(option: Option<ConfigValue>)
    ensures var ts := TimestampLocation(option);
      ts.Stamp? ==> DirectionLabelPlacement(ts) != TextPlacement(ts.places)
  {
    StampHasOneOfEach(option);
  }

  // ---------------------------------------------------------------------
  // The plot

  class SpiralPlot {
    const base: PolarWindPlot
    const newest: bool
    var markerType: Option<string>
    var markerSize: int
    var lineType: Option<LineType>
    var lineWidth: int
    var lineColor: LineColor
    /** Stored as configured; the rendering colours the markers with the
        line colour instead, so nothing in the model reads this field. */
    var markerColor: LineColor

    /** __init__ of the spiral plot: the centre (oldest unless 'newest'),
        the marker, the line type (no spokes), the line colour by speed, age
        or fixed, and the marker colour by speed or fixed. */
    constructor(base: PolarWindPlot, getrgb: GetRgb, centre: Option<string>, markerType: Option<string>,
                markerSize: int, lineType: Option<string>, lineWidth: int, lineColor: Option<string>,
                markerColor: Option<string>)
      ensures this.base == base && this.newest == (centre == Some("newest"))
      ensures this.markerType == Scatter.MarkerType(markerType) && this.markerSize == markerSize
      ensures this.lineType == ParseLineType(lineType, false) && this.lineWidth == lineWidth
      ensures this.lineColor == SpeedPlotColor(getrgb, lineColor, true)
      ensures this.markerColor == SpeedPlotColor(getrgb, markerColor, false)
    {
      this.base := base;
      this.newest := centre == Some("newest");
      this.markerType := Scatter.MarkerType(markerType);
      this.markerSize := markerSize;
      this.lineType := ParseLineType(lineType, false);
      this.lineWidth := lineWidth;
      this.lineColor := SpeedPlotColor(getrgb, lineColor, true);
      this.markerColor := SpeedPlotColor(getrgb, markerColor, false);
    }

    /** set_plot: the ring labels always go in the SE quadrant. */
    method SetPlot()
      modifies base`labelDir
      ensures base.labelDir == Some(Quadrant(1))
    {
      base.labelDir := Some(Quadrant(1));
    }

    /** render_plot: the points of the spiral, within a radius of half the
        plot diameter; nothing at all when there is neither a line nor a
        marker to draw. */
    method RenderPlot() returns (pts: seq<SpiralPoint>)
      requires 0 <= base.samples <= |base.dirs|
      ensures lineType.None? && markerType.None? ==> pts == []
      ensures lineType.Some? || markerType.Some? ==>
        pts == Trace(newest, base.dirs, base.samples, base.maxPlotDia as real / 2.0, base.samples)
    {
      pts := [];
      if lineType.Some? || markerType.Some? {
        var dirs, n: nat, radius := base.dirs, base.samples, base.maxPlotDia as real / 2.0;
        pts := TracePoints(newest, dirs, n, radius);
      }
    }

    /** The ring label's sample, as get_ring_label picks it. */
    method RingLabelSample(ring: int) returns (s: int)
      requires base.samples >= 1 && base.rings > 0 && 0 <= ring <= base.rings
      ensures s == RingSample(newest, base.samples, base.rings, ring)
      ensures 0 <= s < base.samples
    {
      var n: nat := base.samples;
      RingSampleNearRing(newest, n, base.rings, ring);
      s := RingSample(newest, n, base.rings, ring);
    }
  }
}
