/** The trail plot of the current revision (PolarWindTrailPlot): the wind
    run of each sample is laid end to end from the centre, so the trail
    ends at the net wind run vector; the trail is scaled so that its
    furthest point reaches the plot edge, the ring labels show distances,
    and a statement of the net vector is placed clear of the timestamp.
    sin/cos of a bearing, the length of a vector and atan2 are inputs. */
module Trail {
  import opened Py
  import opened Colors
  import opened Grid
  import opened Config
  import opened SpeedBands
  import opened Plot
  import opened Curve
  import Scatter

  // ---------------------------------------------------------------------
  // The wind run legs

  /** The distance divisor: speeds in metres per second give kilometres
      (per 1000 m), speeds per hour give their distance unit (per 3600 s). */
  function Factor(unit: string): (f: real)
    ensures f == 1000.0 <==> unit == "meter_per_second"
    ensures f > 0.0
  {
    if unit == "meter_per_second" then 1000.0 else 3600.0
  }

  /** DISTANCE_LOOKUP: the distance unit of the ring labels; an unknown
      speed unit has none (the lookup fails). */
  function DistanceUnit(unit: string): (d: Option<string>)
    ensures d.Some? <==> unit in {"km_per_hour", "mile_per_hour", "meter_per_second", "knot"}
  {
    if unit == "km_per_hour" then Some("km")
    else if unit == "mile_per_hour" then Some("mile")
    else if unit == "meter_per_second" then Some("km")
    else if unit == "knot" then Some("Nm")
    else None
  }

  /** One sample's contribution: its wind run and the bearing it carries
      the trail along (downwind, the direction plus 180 degrees). */
  datatype Leg = Leg(sample: nat, dist: real, bearing: real)

  /** A sample adds to the trail when it has a speed, the speed is not
      zero, and it has a direction. */
  predicate Counts(speed: Option<real>, dir: Option<real>)
  {
    speed.Some? && dir.Some? && speed.value != 0.0
  }

  /** The distance covered at a speed over delta seconds. */
  function WindRun(speed: real, delta: real, factor: real): real
    requires factor > 0.0
  {
    speed * delta / factor
  }

  /** The leg of sample i (i >= 1), whose speed applies over the time
      since the sample before. */
  function LegAt(speeds: Speeds, dirs: seq<Option<real>>, times: seq<real>, factor: real, i: nat): (l: seq<Leg>)
    requires 1 <= i < |speeds| && i < |dirs| && i < |times| && factor > 0.0
    ensures |l| <= 1
    ensures l != [] <==> Counts(speeds[i], dirs[i])
    ensures l != [] ==> l[0].sample == i
  {
    if Counts(speeds[i], dirs[i]) then
      [Leg(i, WindRun(speeds[i].value, times[i] - times[i - 1], factor), Mod360(dirs[i].value + 180.0))]
    else []
  }

  /** The legs of samples 1 .. k - 1; the first sample has no period and
      is left out. */
  function Legs(speeds: Speeds, dirs: seq<Option<real>>, times: seq<real>, factor: real, k: nat): (legs: seq<Leg>)
    requires k <= |speeds| && k <= |dirs| && k <= |times| && factor > 0.0
  {
    if k <= 1 then [] else Legs(speeds, dirs, times, factor, k - 1) + LegAt(speeds, dirs, times, factor, k - 1)
  }

  /** Every counted sample, and only those, gives a leg, in time order. */
  lemma {:induction false} LegsAreCountedSamples(speeds: Speeds, dirs: seq<Option<real>>, times: seq<real>, factor: real, k: nat)
    requires k <= |speeds| && k <= |dirs| && k <= |times| && factor > 0.0
    ensures CountedInOrder(speeds, dirs, k, Legs(speeds, dirs, times, factor, k))
  {
    if k > 1 {
      LegsAreCountedSamples(speeds, dirs, times, factor, k - 1);
      CountedStep(speeds, dirs, k, Legs(speeds, dirs, times, factor, k - 1), LegAt(speeds, dirs, times, factor, k - 1));
    }
  }

  /** The legs come from the counted samples among 1 .. k - 1, one each,
      in time order, and every one of those samples has its leg. */
  predicate CountedInOrder(speeds: Speeds, dirs: seq<Option<real>>, k: nat, legs: seq<Leg>)
  {
    k <= |speeds| && k <= |dirs| &&
    (forall j :: 0 <= j < |legs| ==> 1 <= legs[j].sample < k && Counts(speeds[legs[j].sample], dirs[legs[j].sample])) &&
    (forall a, b :: 0 <= a < b < |legs| ==> legs[a].sample < legs[b].sample) &&
    (forall i :: 1 <= i < k && Counts(speeds[i], dirs[i]) ==> exists j :: 0 <= j < |legs| && legs[j].sample == i)
  }

  /** Sample k - 1 adds its leg, when it counts, after the earlier ones. */
  lemma CountedStep(speeds: Speeds, dirs: seq<Option<real>>, k: nat, prev: seq<Leg>, last: seq<Leg>)
    requires 1 < k && CountedInOrder(speeds, dirs, k - 1, prev) && k <= |speeds| && k <= |dirs|
    requires |last| <= 1 && (last != [] <==> Counts(speeds[k - 1], dirs[k - 1]))
    requires last != [] ==> last[0].sample == k - 1
    ensures CountedInOrder(speeds, dirs, k, prev + last)
  {
    var legs := prev + last;
    assert forall j :: 0 <= j < |prev| ==> legs[j] == prev[j];
    assert forall j :: |prev| <= j < |legs| ==> legs[j] == last[0];
    forall a, b | 0 <= a < b < |legs|
      ensures legs[a].sample < legs[b].sample
    {
      assert legs[a] == prev[a];
      if b < |prev| {
        assert legs[b] == prev[b];
      } else {
        assert prev[a].sample < k - 1 && legs[b].sample == k - 1;
      }
    }
    forall i | 1 <= i < k && Counts(speeds[i], dirs[i])
      ensures exists j :: 0 <= j < |legs| && legs[j].sample == i
    {
      if i == k - 1 {
        assert legs[|prev|].sample == i;
      } else {
        var j :| 0 <= j < |prev| && prev[j].sample == i;
        assert legs[j].sample == i;
      }
    }
  }

  /** The displacement of going a distance along a compass bearing in
      degrees: (dist * sin, dist * cos) of the bearing. */
  type Displacement = (real, real) -> Point

  /** The length sqrt(x * x + y * y) of a vector. */
  type Norm = Point -> real

  /** Where the trail has got to after the legs: their sum, each leg's
      distance along its bearing. */
  function Walk(legs: seq<Leg>, along: Displacement): Point
  {
    if legs == [] then Point(0.0, 0.0)
    else Advance(Walk(legs[..|legs| - 1], along), legs[|legs| - 1], along)
  }

  /** One leg further on from p. */
  function Advance(p: Point, l: Leg, along: Displacement): Point
  {
    Point(p.x + along(l.dist, l.bearing).x, p.y + along(l.dist, l.bearing).y)
  }

  /** The running maximum after seeing r. */
  function Further(m: real, r: real): (f: real)
    ensures f >= m && f >= r && (f == m || f == r)
  {
    if r > m then r else m
  }

  /** The largest distance from the centre the trail reaches, or 0. */
  function MaxRadius(legs: seq<Leg>, along: Displacement, norm: Norm): real
  {
    if legs == [] then 0.0
    else Further(MaxRadius(legs[..|legs| - 1], along, norm), norm(Walk(legs, along)))
  }

  /** How far from the centre the trail is after its first k legs. */
  function Reach(legs: seq<Leg>, along: Displacement, norm: Norm, k: int): real
    requires 1 <= k <= |legs|
  {
    norm(Walk(legs[..k], along))
  }

  /** The maximum is at least 0 and at least every point of the trail, and
      it is 0 or the distance of one of them. */
  lemma {:induction false} MaxRadiusIsMaximum(legs: seq<Leg>, along: Displacement, norm: Norm)
    ensures var m := MaxRadius(legs, along, norm);
      m >= 0.0 &&
      (forall k :: 1 <= k <= |legs| ==> Reach(legs, along, norm, k) <= m) &&
      (m == 0.0 || exists k :: 1 <= k <= |legs| && Reach(legs, along, norm, k) == m)
  {
    if legs != [] {
      var n := |legs|;
      var prev := legs[..n - 1];
      MaxRadiusIsMaximum(prev, along, norm);
      assert legs[..n] == legs;
      forall k | 1 <= k <= n - 1
        ensures Reach(legs, along, norm, k) == Reach(prev, along, norm, k)
      {
        assert legs[..k] == prev[..k];
      }
      assert Reach(legs, along, norm, n) == norm(Walk(legs, along));
      var m := MaxRadius(prev, along, norm);
      if m != 0.0 && m >= norm(Walk(legs, along)) {
        var k :| 1 <= k <= n - 1 && Reach(prev, along, norm, k) == m;
        assert Reach(legs, along, norm, k) == m;
      }
    }
  }

  /** The dry run of set_plot: the net vector and the largest distance the
      trail reaches. */
  method DryRun(speeds: Speeds, dirs: seq<Option<real>>, times: seq<real>, samples: nat, factor: real,
                along: Displacement, norm: Norm) returns (vecX: real, vecY: real, maxRadius: real)
    requires samples <= |speeds| && samples <= |dirs| && samples <= |times| && factor > 0.0
    ensures DryRunAt(speeds, dirs, times, factor, along, norm, samples, vecX, vecY, maxRadius)
  {
    vecX, vecY, maxRadius := 0.0, 0.0, 0.0;
    if samples > 1 {
      for i := 1 to samples
        invariant DryRunAt(speeds, dirs, times, factor, along, norm, i, vecX, vecY, maxRadius)
      {
        vecX, vecY, maxRadius := DrySample(speeds, dirs, times, factor, along, norm, i, vecX, vecY, maxRadius);
      }
    }
  }

  /** After the samples before k, the dry run is at the end of their legs
      and holds the furthest distance reached. */
  predicate DryRunAt(speeds: Speeds, dirs: seq<Option<real>>, times: seq<real>, factor: real,
                     along: Displacement, norm: Norm, k: nat, vecX: real, vecY: real, maxRadius: real)
  {
    k <= |speeds| && k <= |dirs| && k <= |times| && factor > 0.0 &&
    Point(vecX, vecY) == Walk(Legs(speeds, dirs, times, factor, k), along) &&
    maxRadius == MaxRadius(Legs(speeds, dirs, times, factor, k), along, norm)
  }

  /** One pass of the dry-run loop: a counted sample moves the vector
      along its leg and may raise the maximum; any other is skipped. */
  method DrySample(speeds: Speeds, dirs: seq<Option<real>>, times: seq<real>, factor: real,
                   along: Displacement, norm: Norm, i: nat, vecX: real, vecY: real, maxRadius: real)
    returns (x: real, y: real, m: real)
    requires 1 <= i < |speeds| && i < |dirs| && i < |times| && factor > 0.0
    requires DryRunAt(speeds, dirs, times, factor, along, norm, i, vecX, vecY, maxRadius)
    ensures DryRunAt(speeds, dirs, times, factor, along, norm, i + 1, x, y, m)
  {
    ghost var before := Legs(speeds, dirs, times, factor, i);
    x, y, m := vecX, vecY, maxRadius;
    var speed, dir := speeds[i], dirs[i];
    if speed.Some? && dir.Some? && speed.value != 0.0 {
      var delta := times[i] - times[i - 1];
      var dist := WindRun(speed.value, delta, factor);
      var bearing := Mod360(dir.value + 180.0);
      var d := along(dist, bearing);
      DryStepCounted(speeds, dirs, times, factor, along, norm, i);
      x := x + d.x;
      y := y + d.y;
      var r := norm(Point(x, y));
      if r > m {
        m := r;
      }
    } else {
      NoLegOfOtherSample(speeds, dirs, times, factor, i);
    }
  }

  /** A counted sample moves the trail along its leg and raises the
      maximum to the new point when that is further out. */
  lemma DryStepCounted(speeds: Speeds, dirs: seq<Option<real>>, times: seq<real>, factor: real,
                       along: Displacement, norm: Norm, i: nat)
    requires 1 <= i < |speeds| && i < |dirs| && i < |times| && factor > 0.0
    requires Counts(speeds[i], dirs[i])
    ensures var before := Legs(speeds, dirs, times, factor, i);
      var l := Leg(i, WindRun(speeds[i].value, times[i] - times[i - 1], factor), Mod360(dirs[i].value + 180.0));
      var after := Legs(speeds, dirs, times, factor, i + 1);
      after == before + [l] &&
      Walk(after, along) == Advance(Walk(before, along), l, along) &&
      MaxRadius(after, along, norm) == Further(MaxRadius(before, along, norm), norm(Walk(after, along)))
  {
    var before := Legs(speeds, dirs, times, factor, i);
    var l := Leg(i, WindRun(speeds[i].value, times[i] - times[i - 1], factor), Mod360(dirs[i].value + 180.0));
    LegOfCountedSample(speeds, dirs, times, factor, i);
    WalkExtends(before, l, along, norm);
  }

  /** A counted sample adds its leg. */
  lemma LegOfCountedSample(speeds: Speeds, dirs: seq<Option<real>>, times: seq<real>, factor: real, i: nat)
    requires 1 <= i < |speeds| && i < |dirs| && i < |times| && factor > 0.0
    requires Counts(speeds[i], dirs[i])
    ensures Legs(speeds, dirs, times, factor, i + 1) == Legs(speeds, dirs, times, factor, i) +
      [Leg(i, WindRun(speeds[i].value, times[i] - times[i - 1], factor), Mod360(dirs[i].value + 180.0))]
  {
  }

  /** Any other sample adds nothing. */
  lemma NoLegOfOtherSample(speeds: Speeds, dirs: seq<Option<real>>, times: seq<real>, factor: real, i: nat)
    requires 1 <= i < |speeds| && i < |dirs| && i < |times| && factor > 0.0
    requires !Counts(speeds[i], dirs[i])
    ensures Legs(speeds, dirs, times, factor, i + 1) == Legs(speeds, dirs, times, factor, i)
  {
    assert Legs(speeds, dirs, times, factor, i) + [] == Legs(speeds, dirs, times, factor, i);
  }

  /** Adding a leg moves the trail along it, and raises the maximum to the
      new point when that is further out. */
  lemma WalkExtends(legs: seq<Leg>, l: Leg, along: Displacement, norm: Norm)
    ensures Walk(legs + [l], along) == Advance(Walk(legs, along), l, along)
    ensures MaxRadius(legs + [l], along, norm) == Further(MaxRadius(legs, along, norm), norm(Walk(legs + [l], along)))
  {
    assert (legs + [l])[..|legs|] == legs;
  }

  // ---------------------------------------------------------------------
  // Scaling the trail to the plot

  /** render_plot as written scales by plot_radius / max_vector_radius,
      which fails (division by zero) when the trail never leaves the
      centre. */
  function TrailScaleAsWritten(plotRadius: real, maxRadius: real): (s: Option<real>)
    ensures s.None? <==> maxRadius == 0.0
  {
    if maxRadius == 0.0 then None else Some(plotRadius / maxRadius)
  }

  /** Samples that are all calm put nothing on the trail, and the scale
      of render_plot cannot be computed. */
  lemma CalmTrailCannotBeScaled(along: Displacement, norm: Norm, plotRadius: real)
    ensures var legs := Legs([Some(0.0), Some(0.0)], [Some(90.0), Some(90.0)], [0.0, 300.0], 3600.0, 2);
      legs == [] && TrailScaleAsWritten(plotRadius, MaxRadius(legs, along, norm)).None?
  {
    assert !Counts(Some(0.0), Some(90.0));
  }

  /** The scale the trail is drawn at: the furthest point lands on the
      plot edge; a trail that never leaves the centre is drawn at the
      centre. */
  function TrailScale(plotRadius: real, maxRadius: real): (s: real)
    ensures maxRadius > 0.0 ==> s * maxRadius == plotRadius
    ensures maxRadius <= 0.0 ==> s == 0.0
  {
    if maxRadius > 0.0 then plotRadius / maxRadius else 0.0
  }

  /** How far from the centre a distance r is drawn at the given scale. */
  function Scaled(r: real, scale: real): real
  {
    r * scale
  }

  /** Scaled so, every point of the trail is inside the plot. */
  lemma TrailFitsPlot(legs: seq<Leg>, along: Displacement, norm: Norm, plotRadius: real)
    requires plotRadius >= 0.0
    ensures forall k :: 1 <= k <= |legs| ==>
      Scaled(Reach(legs, along, norm, k), TrailScale(plotRadius, MaxRadius(legs, along, norm))) <= plotRadius
  {
    MaxRadiusIsMaximum(legs, along, norm);
    AllScaledWithin(legs, along, norm, plotRadius, MaxRadius(legs, along, norm));
  }

  /** A trail that leaves the centre has its furthest point on the plot
      edge. */
  lemma TrailReachesEdge(legs: seq<Leg>, along: Displacement, norm: Norm, plotRadius: real)
    requires MaxRadius(legs, along, norm) > 0.0
    ensures exists k :: 1 <= k <= |legs| && Reach(legs, along, norm, k) == MaxRadius(legs, along, norm)
    ensures Scaled(MaxRadius(legs, along, norm), TrailScale(plotRadius, MaxRadius(legs, along, norm))) == plotRadius
  {
    MaxRadiusReached(legs, along, norm);
    ScaledToEdge(MaxRadius(legs, along, norm), plotRadius);
  }

  /** A positive maximum is the distance of some point of the trail. */
  lemma MaxRadiusReached(legs: seq<Leg>, along: Displacement, norm: Norm)
    requires MaxRadius(legs, along, norm) > 0.0
    ensures exists k :: 1 <= k <= |legs| && Reach(legs, along, norm, k) == MaxRadius(legs, along, norm)
  {
    MaxRadiusIsMaximum(legs, along, norm);
  }

  lemma AllScaledWithin(legs: seq<Leg>, along: Displacement, norm: Norm, plotRadius: real, m: real)
    requires plotRadius >= 0.0 && m >= 0.0
    requires forall k :: 1 <= k <= |legs| ==> Reach(legs, along, norm, k) <= m
    ensures forall k :: 1 <= k <= |legs| ==> Scaled(Reach(legs, along, norm, k), TrailScale(plotRadius, m)) <= plotRadius
  {
    forall k | 1 <= k <= |legs|
      ensures Scaled(Reach(legs, along, norm, k), TrailScale(plotRadius, m)) <= plotRadius
    {
      ScaledWithin(Reach(legs, along, norm, k), m, plotRadius);
    }
  }

  /** The maximum distance is drawn on the plot edge. */
  lemma ScaledToEdge(m: real, plotRadius: real)
    requires m > 0.0
    ensures Scaled(m, TrailScale(plotRadius, m)) == plotRadius
  {
    assert TrailScale(plotRadius, m) * m == plotRadius;
  }

  /** A distance up to the maximum is drawn inside the plot radius, and
      the maximum itself on it. */
  lemma ScaledWithin(r: real, m: real, plotRadius: real)
    requires r <= m && m >= 0.0 && plotRadius >= 0.0
    ensures Scaled(r, TrailScale(plotRadius, m)) <= plotRadius
    ensures m > 0.0 ==> Scaled(m, TrailScale(plotRadius, m)) == plotRadius
  {
    var s := TrailScale(plotRadius, m);
    if m > 0.0 {
      assert s * m == plotRadius;
      ScaleLe(r, m, s);
    }
  }

  // ---------------------------------------------------------------------
  // Drawing the trail

  /** A point of the drawn trail: the sample it belongs to, where it is on
      the image (y grows downwards), and its distance from the origin. */
  datatype TrailPoint = TrailPoint(sample: nat, at: Point, radius: real)

  /** The point for the net vector v, scaled about the origin. */
  function Plotted(sample: nat, v: Point, norm: Norm, originX: real, originY: real, scale: real): TrailPoint
  {
    TrailPoint(sample, Point(originX + v.x * scale, originY - v.y * scale), Scaled(norm(v), scale))
  }

  /** The drawn points: one per leg, at the trail's position after it. */
  function ScaledPoints(legs: seq<Leg>, along: Displacement, norm: Norm, originX: real, originY: real, scale: real): seq<TrailPoint>
  {
    if legs == [] then []
    else
      var prev := legs[..|legs| - 1];
      ScaledPoints(prev, along, norm, originX, originY, scale) +
      [Plotted(legs[|legs| - 1].sample, Walk(legs, along), norm, originX, originY, scale)]
  }

  /** A further leg adds its point. */
  lemma PointsExtend(legs: seq<Leg>, l: Leg, along: Displacement, norm: Norm, originX: real, originY: real, scale: real)
    ensures ScaledPoints(legs + [l], along, norm, originX, originY, scale) ==
      ScaledPoints(legs, along, norm, originX, originY, scale) + [Plotted(l.sample, Walk(legs + [l], along), norm, originX, originY, scale)]
  {
    assert (legs + [l])[..|legs|] == legs;
  }

  /** Point j is leg j's sample, at the scaled reach of the first j + 1
      legs. */
  lemma {:induction false} ScaledPointsFollowLegs(legs: seq<Leg>, along: Displacement, norm: Norm,
                                                  originX: real, originY: real, scale: real)
    ensures PointsFollowLegs(legs, along, norm, scale, ScaledPoints(legs, along, norm, originX, originY, scale))
  {
    if legs != [] {
      var n := |legs|;
      var prev := legs[..n - 1];
      ScaledPointsFollowLegs(prev, along, norm, originX, originY, scale);
      var pts := ScaledPoints(legs, along, norm, originX, originY, scale);
      var before := ScaledPoints(prev, along, norm, originX, originY, scale);
      assert legs[..n] == legs;
      forall j | 0 <= j < n - 1
        ensures pts[j].sample == legs[j].sample && pts[j].radius == Scaled(Reach(legs, along, norm, j + 1), scale)
      {
        assert pts[j] == before[j];
        assert legs[..j + 1] == prev[..j + 1];
      }
    }
  }

  predicate PointsFollowLegs(legs: seq<Leg>, along: Displacement, norm: Norm, scale: real, pts: seq<TrailPoint>)
  {
    |pts| == |legs| &&
    forall j :: 0 <= j < |legs| ==>
      pts[j].sample == legs[j].sample && pts[j].radius == Scaled(Reach(legs, along, norm, j + 1), scale)
  }

  /** Drawn at TrailScale, every point of the trail is inside the plot
      circle, and with a trail that leaves the centre one of them is on
      it. */
  lemma TrailPointsInsidePlot(legs: seq<Leg>, along: Displacement, norm: Norm,
                              originX: real, originY: real, plotRadius: real)
    requires plotRadius >= 0.0
    ensures var pts := ScaledPoints(legs, along, norm, originX, originY, TrailScale(plotRadius, MaxRadius(legs, along, norm)));
      (forall j :: 0 <= j < |pts| ==> pts[j].radius <= plotRadius) &&
      (MaxRadius(legs, along, norm) > 0.0 ==> exists j :: 0 <= j < |pts| && pts[j].radius == plotRadius)
  {
    var scale := TrailScale(plotRadius, MaxRadius(legs, along, norm));
    var pts := ScaledPoints(legs, along, norm, originX, originY, scale);
    ScaledPointsFollowLegs(legs, along, norm, originX, originY, scale);
    TrailFitsPlot(legs, along, norm, plotRadius);
    if MaxRadius(legs, along, norm) > 0.0 {
      TrailReachesEdge(legs, along, norm, plotRadius);
      var k :| 1 <= k <= |legs| && Reach(legs, along, norm, k) == MaxRadius(legs, along, norm);
      assert pts[k - 1].radius == Scaled(Reach(legs, along, norm, k), scale);
    }
  }

  /** The drawing loop of render_plot has drawn the legs of the samples
      before k and stands at the end of them. */
  predicate RenderedAt(speeds: Speeds, dirs: seq<Option<real>>, times: seq<real>, factor: real,
                       along: Displacement, norm: Norm, originX: real, originY: real, scale: real,
                       k: nat, vecX: real, vecY: real, pts: seq<TrailPoint>)
  {
    k <= |speeds| && k <= |dirs| && k <= |times| && factor > 0.0 &&
    Point(vecX, vecY) == Walk(Legs(speeds, dirs, times, factor, k), along) &&
    pts == ScaledPoints(Legs(speeds, dirs, times, factor, k), along, norm, originX, originY, scale)
  }

  /** The drawing loop of render_plot: the running vector, scaled about
      the origin, for every counted sample. */
  method RenderTrail(speeds: Speeds, dirs: seq<Option<real>>, times: seq<real>, samples: nat, factor: real,
                     along: Displacement, norm: Norm, originX: real, originY: real, scale: real)
    returns (pts: seq<TrailPoint>)
    requires samples <= |speeds| && samples <= |dirs| && samples <= |times| && factor > 0.0
    ensures pts == ScaledPoints(Legs(speeds, dirs, times, factor, samples), along, norm, originX, originY, scale)
  {
    var vecX, vecY := 0.0, 0.0;
    pts := [];
    if samples > 1 {
      for i := 1 to samples
        invariant RenderedAt(speeds, dirs, times, factor, along, norm, originX, originY, scale, i, vecX, vecY, pts)
      {
        vecX, vecY, pts := RenderSample(speeds, dirs, times, factor, along, norm, originX, originY, scale, i, vecX, vecY, pts);
      }
    }
  }

  /** One pass of the drawing loop: a counted sample moves the vector
      along its leg and adds the scaled point; any other is skipped. */
  method RenderSample(speeds: Speeds, dirs: seq<Option<real>>, times: seq<real>, factor: real,
                      along: Displacement, norm: Norm, originX: real, originY: real, scale: real,
                      i: nat, vecX: real, vecY: real, pts: seq<TrailPoint>)
    returns (x: real, y: real, pts': seq<TrailPoint>)
    requires 1 <= i < |speeds| && i < |dirs| && i < |times| && factor > 0.0
    requires RenderedAt(speeds, dirs, times, factor, along, norm, originX, originY, scale, i, vecX, vecY, pts)
    ensures RenderedAt(speeds, dirs, times, factor, along, norm, originX, originY, scale, i + 1, x, y, pts')
  {
    ghost var before := Legs(speeds, dirs, times, factor, i);
    x, y, pts' := vecX, vecY, pts;
    var speed, dir := speeds[i], dirs[i];
    if speed.Some? && dir.Some? && speed.value != 0.0 {
      var delta := times[i] - times[i - 1];
      var dist := WindRun(speed.value, delta, factor);
      var bearing := Mod360(dir.value + 180.0);
      var d := along(dist, bearing);
      DryStepCounted(speeds, dirs, times, factor, along, norm, i);
      x := x + d.x;
      y := y + d.y;
      PointsExtend(before, Leg(i, dist, bearing), along, norm, originX, originY, scale);
      assert Walk(before + [Leg(i, dist, bearing)], along) == Point(x, y);
      pts' := pts' + [Plotted(i, Point(x, y), norm, originX, originY, scale)];
    } else {
      NoLegOfOtherSample(speeds, dirs, times, factor, i);
    }
  }

  // ---------------------------------------------------------------------
  // Label quadrant

  function AbsReal(x: real): (r: real)
    ensures r >= 0.0 && (r == x || r == -x)
  {
    if x < 0.0 then -x else x
  }

  /** A quadrant suits the ring labels unless the net vector lies in it
      within the clear arc of its 45-degree diagonal. */
  predicate Suitable(q: int, quadrant: int, angle: real, clearArc: real)
  {
    q != quadrant || AbsReal((45 + q * 90) as real - angle) >= clearArc
  }

  /** The first suitable quadrant in the order, or SE (1). */
  function FirstSuitable(order: seq<nat>, quadrant: int, angle: real, clearArc: real): (q: int)
    ensures q == 1 || (q in order && Suitable(q, quadrant, angle, clearArc))
  {
    if order == [] then 1
    else if Suitable(order[0], quadrant, angle, clearArc) then order[0]
    else FirstSuitable(order[1..], quadrant, angle, clearArc)
  }

  /** The label-quadrant loop of set_plot, for the net vector's bearing
      in [0, 360). */
  method ChooseLabelQuadrant(angle: real, clearArc: real) returns (labelDir: int)
    requires 0.0 <= angle < 360.0
    ensures labelDir == FirstSuitable(Scatter.PreferredQuadrants, Scatter.QuadrantOf(angle), angle, clearArc)
  {
    var quadrant := (angle / 90.0).Floor;
    labelDir := 1;
    var order := Scatter.PreferredQuadrants;
    for i := 0 to 4
      invariant FirstSuitable(order, quadrant, angle, clearArc) == FirstSuitable(order[i..], quadrant, angle, clearArc)
    {
      assert order[i..][1..] == order[i + 1..];
      var q := order[i];
      var labelDiff := AbsReal((45 + q * 90) as real - angle);
      if q != quadrant || labelDiff >= clearArc {
        labelDir := q;
        return;
      }
    }
  }

  /** The labels stay in SE unless the net vector points near the SE
      diagonal, and then they move to SW; the quadrant chosen is always
      suitable. */
  lemma TrailLabelQuadrant(angle: real, clearArc: real)
    requires 0.0 <= angle < 360.0
    ensures var quadrant := Scatter.QuadrantOf(angle);
      var q := FirstSuitable(Scatter.PreferredQuadrants, quadrant, angle, clearArc);
      q == (if quadrant == 1 && AbsReal(135.0 - angle) < clearArc then 2 else 1) &&
      Suitable(q, quadrant, angle, clearArc)
  {
    var order := Scatter.PreferredQuadrants;
    assert order[1..] == [2, 0, 3];
  }

  /** The ring_label_clear_arc option as plot_dict.get returns it: the
      integer 30 when the option is unset, the configured text otherwise. */
  datatype ClearArcOption = DefaultClearArc | ConfiguredClearArc(text: string)

  /** The label-quadrant loop of set_plot as written. The `or` compares
      label_diff with ring_label_clear_arc only for the quadrant that holds
      the net vector, and Python 3 cannot order a float against a string,
      so a configured arc raises TypeError there. */
  function LabelQuadrantAsWritten(order: seq<nat>, quadrant: int, angle: real, arc: ClearArcOption): (r: Outcome<int>)
    ensures arc.DefaultClearArc? ==> r == Returns(FirstSuitable(order, quadrant, angle, 30.0))
  {
    if order == [] then Returns(1)
    else if order[0] != quadrant then Returns(order[0])
    else if arc.ConfiguredClearArc? then Raises
    else if AbsReal((45 + order[0] * 90) as real - angle) >= 30.0 then Returns(order[0])
    else LabelQuadrantAsWritten(order[1..], quadrant, angle, arc)
  }

  /** As written, any configured clear arc raises exactly when the net
      vector lies in SE, the first quadrant tried; a bearing of 135 degrees
      shows it. */
  lemma ConfiguredClearArcRaises(angle: real, text: string)
    requires 0.0 <= angle < 360.0
    ensures var quadrant := Scatter.QuadrantOf(angle);
      (LabelQuadrantAsWritten(Scatter.PreferredQuadrants, quadrant, angle, ConfiguredClearArc(text)).Raises? <==>
       quadrant == 1)
    ensures LabelQuadrantAsWritten(Scatter.PreferredQuadrants, 1, 135.0, ConfiguredClearArc(text)).Raises?
  {
    var order := Scatter.PreferredQuadrants;
    assert order[0] == 1 && order[1..] == [2, 0, 3];
  }

  // ---------------------------------------------------------------------
  // Net vector statement and ring labels

  /** render_vector: the bearing of the net vector from atan2 in degrees
      (-180 to 180), rounded, then brought into 0 to 359. */
  function VectorBearing(degrees: real): (b: int)
    requires -180.0 <= degrees <= 180.0
    ensures 0 <= b < 360
    ensures (b - RoundHalfEven(degrees)) % 360 == 0
  {
    RoundStaysInRange(degrees, -180, 180);
    var d := RoundHalfEven(degrees);
    if d >= 0 then d else d + 360
  }

  /** The words of vector_location as written: set() of the option, so a
      single word becomes the set of its characters. */
  function VectorWordsAsWritten(option: Option<ConfigValue>): set<string>
  {
    match option
    case None => {}
    case Some(Str(s)) => set i | 0 <= i < |s| :: [s[i]]
    case Some(List(items)) => set w | w in items
  }

  /** The words of vector_location as intended: a single word is one
      word. */
  function VectorWords(option: Option<ConfigValue>): (words: set<string>)
    ensures option.Some? && option.value.Str? ==> words == {option.value.s}
    ensures option.Some? && option.value.List? ==> forall w :: w in words <==> w in option.value.items
  {
    match option
    case None => {}
    case Some(Str(s)) => {s}
    case Some(List(items)) => set w | w in items
  }

  /** vector_location = top puts the statement at the bottom: none of
      't', 'o' and 'p' is a location word. */
  lemma SingleVectorWordIgnored()
    ensures VectorWordsAsWritten(Some(Str("top"))) == {"t", "o", "p"}
    ensures VectorWords(Some(Str("top"))) == {"top"}
    ensures TextPlacement(PlaceVector(VectorWordsAsWritten(Some(Str("top"))), NoStamp)).v == Bottom
    ensures TextPlacement(PlaceVector(VectorWords(Some(Str("top"))), NoStamp)).v == Top
  {
    var w := VectorWordsAsWritten(Some(Str("top")));
    assert "t" == "top"[0..1] && "o" == "top"[1..2] && "p" == "top"[2..3];
    assert w == {"t", "o", "p"} by {
      forall x | x in w ensures x in {"t", "o", "p"} {
        var i :| 0 <= i < 3 && x == ["top"[i]];
      }
      assert ["top"[0]] in w && ["top"[1]] in w && ["top"[2]] in w;
    }
  }

  const VerticalDefault: set<string> := {"bottom"}

  /** The placement of the net vector statement, as written: a missing
      vertical word means bottom; a missing horizontal word means the side
      away from a left or right timestamp; a side shared with the
      timestamp is swapped. The timestamp location is consulted with `&`,
      which fails (None) when there is no timestamp. */
  function PlaceVectorAsWritten(words: set<string>, ts: StampLocation): (place: Option<set<string>>)
    ensures ts.Stamp? ==> place == Some(PlaceVector(words, ts))
  {
    var v := if words * VerticalWords == {} then VerticalDefault else words * VerticalWords;
    var h := words * HorizontalWords;
    if h == {} then
      if !ts.Stamp? then None
      else Some(v + (if "left" in ts.places then {"right"} else {"left"}))
    else if "left" in words && !ts.Stamp? then None
    else if "left" in words && "left" in ts.places then Some(v + {"right"})
    else if "right" in words && !ts.Stamp? then None
    else if "right" in words && "right" in ts.places then Some(v + {"left"})
    else Some(v + h)
  }

  /** With the timestamp switched off, a trail plot whose vector location
      names no side, or names the left or the right, cannot be set up. */
  lemma NoTimestampBreaksVectorLocation(words: set<string>)
    requires words * HorizontalWords == {} || "left" in words || "right" in words
    ensures PlaceVectorAsWritten(words, NoStamp).None?
    ensures PlaceVector(words, NoStamp) * VerticalWords != {} && PlaceVector(words, NoStamp) * HorizontalWords != {}
  {
  }

  /** The placement of the net vector statement as intended: without a
      timestamp there is nothing to avoid. */
  function PlaceVector(words: set<string>, ts: StampLocation): (place: set<string>)
    ensures place * VerticalWords != {} && place * HorizontalWords != {}
    ensures words * VerticalWords != {} ==> place * VerticalWords == words * VerticalWords
  {
    var stamp := if ts.Stamp? then ts.places else {};
    var v := if words * VerticalWords == {} then VerticalDefault else words * VerticalWords;
    var h := HorizontalPart(words, stamp);
    assert (v + h) * HorizontalWords == h;
    assert v <= VerticalWords && (v + h) * VerticalWords == v;
    v + h
  }

  /** The horizontal words of the placement, given the timestamp's words. */
  function HorizontalPart(words: set<string>, stamp: set<string>): (h: set<string>)
    ensures h <= HorizontalWords && h != {}
  {
    var h := words * HorizontalWords;
    if h == {} then (if "left" in stamp then {"right"} else {"left"})
    else if "left" in words && "left" in stamp then {"right"}
    else if "right" in words && "right" in stamp then {"left"}
    else h
  }

  predicate Centred(places: set<string>)
  {
    "left" !in places && ("centre" in places || "center" in places)
  }

  /** The statement is never on the timestamp's side of the plot, except
      when both are asked to be centred. */
  lemma VectorAvoidsTimestamp(words: set<string>, places: set<string>)
    requires OneHorizontal(places)
    ensures TextPlacement(PlaceVector(words, Stamp(places))).h == TextPlacement(places).h <==>
      Centred(words) && Centred(places)
  {
    var v := if words * VerticalWords == {} then VerticalDefault else words * VerticalWords;
    var h := HorizontalPart(words, places);
    assert PlaceVector(words, Stamp(places)) == v + h;
    assert "left" in v + h <==> "left" in h;
    assert "centre" in v + h <==> "centre" in h;
    assert "center" in v + h <==> "center" in h;
    assert TextPlacement(v + h).h == TextPlacement(h).h;
    if words * HorizontalWords == {} {
      assert !Centred(words);
    } else if "left" in words && "left" in places {
    } else if "right" in words && "right" in places {
      OnlyHorizontalWord(places, "right");
      assert "centre" !in places * HorizontalWords && "center" !in places * HorizontalWords;
      assert h == {"left"};
      assert "left" !in places * HorizontalWords;
      assert TextPlacement(places).h == Right;
      assert TextPlacement(h).h == Left;
    } else {
      assert h == words * HorizontalWords;
      assert "left" in h <==> "left" in words;
      assert "centre" in h <==> "centre" in words;
      assert "center" in h <==> "center" in words;
    }
  }

  /** A location with one horizontal word has no other. */
  lemma OnlyHorizontalWord(places: set<string>, w: string)
    requires OneHorizontal(places) && w in places && w in HorizontalWords
    ensures places * HorizontalWords == {w}
  {
    assert w in places * HorizontalWords;
  }

  /** get_ring_label: ring r shows r / rings of the furthest distance,
      rounded half to even (the distance unit follows). */
  function TrailRingLabel(maxRadius: real, rings: int, ring: int): int
    requires rings > 0
  {
    RoundHalfEven(Share(maxRadius, rings as real, ring as real))
  }

  /** The outer ring shows the furthest distance, rounded, and labels
      never decrease outwards. */
  lemma TrailRingLabels(maxRadius: real, rings: int, r1: int, r2: int)
    requires maxRadius >= 0.0 && rings > 0 && r1 <= r2
    ensures TrailRingLabel(maxRadius, rings, rings) == RoundHalfEven(maxRadius)
    ensures TrailRingLabel(maxRadius, rings, r1) <= TrailRingLabel(maxRadius, rings, r2)
  {
    WholeShare(maxRadius, rings as real);
    SharesOrdered(maxRadius, rings as real, r1 as real, r2 as real);
    RoundHalfEvenMonotone(Share(maxRadius, rings as real, r1 as real), Share(maxRadius, rings as real, r2 as real));
  }

  // ---------------------------------------------------------------------
  // The plot

  class TrailPlot {
    const base: PolarWindPlot
    var markerType: Option<string>
    var markerSize: int
    var lineType: Option<LineType>
    var lineWidth: int
    var lineColor: LineColor
    var markerColor: LineColor
    var vectorColor: Option<Rgb>
    var endPointColor: Option<Rgb>
    var vectorLocation: set<string>
    var factor: real
    var maxVectorRadius: real
    var vectorX: real
    var vectorY: real
    var ringUnits: Option<string>

    /** __init__ of the trail plot: marker, line type (no spokes), line and
        marker colours, the net vector colour (default red), the end point
        colour (none by default) and the placement of the net vector
        statement given the timestamp's. */
    constructor(base: PolarWindPlot, getrgb: GetRgb, markerType: Option<string>, markerSize: int,
                lineType: Option<string>, lineWidth: int, lineColor: Option<string>, markerColor: Option<string>,
                vectorColor: Option<string>, endPointColor: Option<string>, vectorLocation: Option<ConfigValue>)
      ensures this.base == base
      ensures this.markerType == Scatter.MarkerType(markerType) && this.markerSize == markerSize
      ensures this.lineType == ParseLineType(lineType, false) && this.lineWidth == lineWidth
      ensures this.lineColor == SpeedPlotColor(getrgb, lineColor, true)
      ensures this.markerColor == SpeedPlotColor(getrgb, markerColor, false)
      ensures this.vectorColor == ParseColor(getrgb, Some(if vectorColor.Some? then vectorColor.value else "red"), Some("red"))
      ensures this.endPointColor == ParseColor(getrgb, endPointColor, None)
      ensures this.vectorLocation == PlaceVector(VectorWords(vectorLocation), base.timestampLocation)
    {
      this.base := base;
      this.markerType := Scatter.MarkerType(markerType);
      this.markerSize := markerSize;
      this.lineType := ParseLineType(lineType, false);
      this.lineWidth := lineWidth;
      this.lineColor := SpeedPlotColor(getrgb, lineColor, true);
      this.markerColor := SpeedPlotColor(getrgb, markerColor, false);
      this.vectorColor := ParseColor(getrgb, Some(if vectorColor.Some? then vectorColor.value else "red"), Some("red"));
      this.endPointColor := ParseColor(getrgb, endPointColor, None);
      this.vectorLocation := PlaceVector(VectorWords(vectorLocation), base.timestampLocation);
      this.factor := 3600.0;
      this.maxVectorRadius := 0.0;
      this.vectorX := 0.0;
      this.vectorY := 0.0;
      this.ringUnits := None;
    }

    /** set_plot: the dry run, the label quadrant chosen from the bearing
        of the net vector, and the distance unit. */
    method SetPlot(unit: string, along: Displacement, norm: Norm, atan2Degrees: Point -> real)
      requires 0 <= base.samples <= |base.speeds| && base.samples <= |base.dirs| && base.samples <= |base.times|
      modifies this`factor, this`maxVectorRadius, this`vectorX, this`vectorY, this`ringUnits, base`labelDir
      ensures factor == Factor(unit) && ringUnits == DistanceUnit(unit)
      ensures DryRunAt(base.speeds, base.dirs, base.times, factor, along, norm, base.samples, vectorX, vectorY, maxVectorRadius)
      ensures var angle := Mod360(atan2Degrees(Point(vectorX, vectorY)));
        base.labelDir == Some(Quadrant(FirstSuitable(Scatter.PreferredQuadrants, Scatter.QuadrantOf(angle), angle, base.ringLabelClearArc)))
    {
      var f := Factor(unit);
      var speeds, dirs, times, samples: nat, clearArc := base.speeds, base.dirs, base.times, base.samples, base.ringLabelClearArc;
      var x, y, m := DryRun(speeds, dirs, times, samples, f, along, norm);
      var angle := Mod360(atan2Degrees(Point(x, y)));
      var q := ChooseLabelQuadrant(angle, clearArc);
      factor, maxVectorRadius, vectorX, vectorY := f, m, x, y;
      base.labelDir := Some(Quadrant(q));
      ringUnits := DistanceUnit(unit);
    }

    /** render_plot: nothing without a line and a marker; otherwise the
        trail's points, scaled so that the furthest lands on the plot
        edge. */
    method RenderPlot(along: Displacement, norm: Norm) returns (pts: seq<TrailPoint>)
      requires 0 <= base.samples <= |base.speeds| && base.samples <= |base.dirs| && base.samples <= |base.times|
      requires factor > 0.0
      ensures lineType.None? && markerType.None? ==> pts == []
      ensures lineType.Some? || markerType.Some? ==>
        pts == ScaledPoints(Legs(base.speeds, base.dirs, base.times, factor, base.samples), along, norm,
                            base.originX as real, base.originY as real,
                            TrailScale(base.maxPlotDia as real / 2.0, maxVectorRadius))
    {
      pts := [];
      if lineType.Some? || markerType.Some? {
        var plotRadius := base.maxPlotDia as real / 2.0;
        var scale := TrailScale(plotRadius, maxVectorRadius);
        var speeds, dirs, times, samples: nat := base.speeds, base.dirs, base.times, base.samples;
        pts := RenderTrail(speeds, dirs, times, samples, factor, along, norm, base.originX as real, base.originY as real, scale);
      }
    }
  }
}
