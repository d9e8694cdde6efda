/** join_curve: two polar points are joined by a chain of straight segments,
    one degree of arc each, running the short way round from the first
    bearing to the second, with the radius changing linearly on the way.
    Turning a (radius, bearing) pair into pixels is trigonometry and is an
    input here. */
module Curve {
  import opened Py

  datatype Point = Point(x: real, y: real)

  datatype Segment = Segment(from: Point, to: Point)

  /** The pixel position of the polar point (radius, bearing). */
  type PointAt = (real, real) -> Point

  /** The direction of drawing (+1 clockwise, -1 anticlockwise) and the
      angle it covers. */
  datatype Sweep = Sweep(dir: int, span: real)

  /** The short way from startA to endA: clockwise when that covers at most
      180 degrees, otherwise anticlockwise. */
  function ShortWay(startA: real, endA: real): (w: Sweep)
    ensures w.dir == 1 || w.dir == -1
    ensures 0.0 <= w.span <= 180.0
    ensures w.dir == 1 ==> w.span == Mod360(endA - startA)
    ensures w.dir == -1 ==> w.span == Mod360(startA - endA)
    ensures w.span <= Mod360(endA - startA) && w.span <= Mod360(startA - endA)
  {
    Mod360Negate(endA - startA);
    assert -(endA - startA) == startA - endA;
    if Mod360(endA - startA) <= 180.0 then Sweep(1, Mod360(endA - startA))
    else Sweep(-1, Mod360(startA - endA))
  }

  /** How many one-degree steps the loop `a = 1; while a < span` takes. */
  function StepCount(span: real): (n: nat)
    ensures (n == 0 && span <= 1.0) || (n >= 1 && n as real < span <= n as real + 1.0)
  {
    if span <= 1.0 then 0 else Ceil(span) - 1
  }

  /** For a whole number of degrees s the curve has max(s, 1) segments: a
      span below 2 degrees gives the single closing segment. */
  lemma SegmentsForWholeSpan(s: int)
    requires s >= 0
    ensures StepCount(s as real) + 1 == if s >= 1 then s else 1
  {
  }

  /** Radius at step a: linear from startR (a = 0) to endR (a = span). */
  function ArcRadius(startR: real, endR: real, span: real, a: int): real
    requires span > 0.0
  {
    startR + (endR - startR) * a as real / span
  }

  /** Bearing of step a, counted from the base bearing in the direction of
      drawing. */
  function ArcAngle(base: real, w: Sweep, a: int): real
  {
    base + (a * w.dir) as real
  }

  function ArcPoint(pointAt: PointAt, startR: real, endR: real, base: real, w: Sweep, a: int): Point
    requires w.span > 0.0
  {
    pointAt(ArcRadius(startR, endR, w.span, a), ArcAngle(base, w, a))
  }

  /** The intermediate points 1..n. */
  function ArcPoints(pointAt: PointAt, startR: real, endR: real, base: real, w: Sweep, n: nat): (pts: seq<Point>)
    requires n > 0 ==> w.span > 0.0
    ensures |pts| == n
  {
    seq(n, i requires 0 <= i < n => ArcPoint(pointAt, startR, endR, base, w, i + 1))
  }

  /** Segments from start through each point in turn. */
  function Links(start: Point, pts: seq<Point>): (segs: seq<Segment>)
    ensures |segs| == |pts|
  {
    seq(|pts|, i requires 0 <= i < |pts| => Segment(if i == 0 then start else pts[i - 1], pts[i]))
  }

  function LastOf(start: Point, pts: seq<Point>): Point
  {
    if pts == [] then start else pts[|pts| - 1]
  }

  /** The full chain: start, the points in order, and a closing segment to
      the end point. Each segment starts where the one before ends. */
  function Chain(start: Point, pts: seq<Point>, end: Point): (segs: seq<Segment>)
    ensures |segs| == |pts| + 1
    ensures segs[0].from == start && segs[|pts|].to == end
    ensures forall i :: 0 <= i < |pts| ==> segs[i].to == pts[i] && segs[i + 1].from == pts[i]
  {
    Links(start, pts) + [Segment(LastOf(start, pts), end)]
  }

  /** The drawing loop shared by both revisions: from the base bearing, one
      degree at a time while a < span, then a closing segment to the end. */
  method Subdivide(pointAt: PointAt, start: Point, startR: real, base: real, w: Sweep,
                   end: Point, endR: real) returns (segs: seq<Segment>)
    ensures segs == Chain(start, ArcPoints(pointAt, startR, endR, base, w, StepCount(w.span)), end)
  {
    var last := start;
    segs := [];
    var a := 1;
    while (a as real) < w.span
      invariant 1 <= a <= StepCount(w.span) + 1
      invariant a == 1 || (a - 1) as real < w.span
      invariant segs == Links(start, ArcPoints(pointAt, startR, endR, base, w, a - 1))
      invariant last == LastOf(start, ArcPoints(pointAt, startR, endR, base, w, a - 1))
    {
      var p := ArcPoint(pointAt, startR, endR, base, w, a);
      ghost var before := ArcPoints(pointAt, startR, endR, base, w, a - 1);
      assert ArcPoints(pointAt, startR, endR, base, w, a) == before + [p];
      segs := segs + [Segment(last, p)];
      last := p;
      a := a + 1;
    }
    segs := segs + [Segment(last, end)];
  }

  /** join_curve of the current revision: the steps run from the start
      bearing in the direction of the short way. */
  method JoinCurve(pointAt: PointAt, start: Point, startR: real, startA: real,
                   end: Point, endR: real, endA: real) returns (segs: seq<Segment>)
    ensures var w := ShortWay(startA, endA);
      segs == Chain(start, ArcPoints(pointAt, startR, endR, startA, w, StepCount(w.span)), end)
  {
    var w := ShortWay(startA, endA);
    segs := Subdivide(pointAt, start, startR, startA, w, end, endR);
  }

  /** How far bearing `to` lies from bearing `from` in direction dir. */
  function Offset(to: real, from: real, dir: int): (r: real)
    ensures 0.0 <= r < 360.0
  {
    Mod360(dir as real * (to - from))
  }

  /** Every intermediate bearing lies on the short arc: step a is a degrees
      from the start and span - a degrees before the end, in the direction
      of drawing. */
  lemma {:induction false} StepsOnShortArc(startA: real, endA: real, a: int)
    requires 1 <= a <= StepCount(ShortWay(startA, endA).span)
    ensures var w := ShortWay(startA, endA);
      var t := ArcAngle(startA, w, a);
      Offset(t, startA, w.dir) == a as real &&
      Offset(endA, t, w.dir) == w.span - a as real
  {
    var w := ShortWay(startA, endA);
    var t := ArcAngle(startA, w, a);
    Mod360Unique(a as real, 0, a as real);
    if w.dir == 1 {
      assert t - startA == a as real;
      var k := ((endA - startA) / 360.0).Floor;
      assert endA - startA == 360.0 * k as real + w.span;
      Mod360Unique(endA - t, k, w.span - a as real);
    } else {
      assert -1.0 * (t - startA) == a as real;
      var k := ((startA - endA) / 360.0).Floor;
      assert startA - endA == 360.0 * k as real + w.span;
      Mod360Unique(-1.0 * (endA - t), k, w.span - a as real);
    }
  }

  /** The earlier revision's joinCurve: after swapping the bearings for an
      anticlockwise sweep it steps from the swapped start, endA. */
  method JoinCurveLegacy(pointAt: PointAt, start: Point, startR: real, startA: real,
                         end: Point, endR: real, endA: real) returns (segs: seq<Segment>)
    ensures var w := ShortWay(startA, endA);
      var base := if w.dir == 1 then startA else endA;
      segs == Chain(start, ArcPoints(pointAt, startR, endR, base, w, StepCount(w.span)), end)
  {
    var w := ShortWay(startA, endA);
    var base := if w.dir == 1 then startA else endA;
    segs := Subdivide(pointAt, start, startR, base, w, end, endR);
  }

  /** From 10 to 350 degrees the short way is 20 degrees anticlockwise. The
      earlier revision's first step is at 349 degrees, 21 degrees from the
      start in the direction of drawing: outside the 20-degree arc it
      should follow, while the current revision's first step, 9 degrees,
      is on it. */
  lemma LegacyStepsLeaveArc()
    ensures ShortWay(10.0, 350.0) == Sweep(-1, 20.0)
    ensures ArcAngle(350.0, Sweep(-1, 20.0), 1) == 349.0
    ensures Offset(349.0, 10.0, -1) == 21.0 > 20.0
    ensures ArcAngle(10.0, Sweep(-1, 20.0), 1) == 9.0
    ensures Offset(9.0, 10.0, -1) == 1.0
  {
    Mod360Unique(340.0, 0, 340.0);
    Mod360Unique(-340.0, -1, 20.0);
    Mod360Unique(-1.0 * (349.0 - 10.0), -1, 21.0);
    Mod360Unique(-1.0 * (9.0 - 10.0), 0, 1.0);
  }
}
