/** The scatter plot of the current revision (PolarWindScatterPlot): its
    options, the quadrant that carries the ring labels, and the ring
    labels, which show speeds. */
module Scatter {
  import opened Py
  import opened Counting
  import opened Colors
  import opened Grid
  import opened Config
  import opened Plot

  /** The quadrants in order of preference for the ring labels: SE, SW,
      NE, NW (quadrant 0 is NE, numbering clockwise). */
  const PreferredQuadrants: seq<nat> := [1, 2, 0, 3]

  const DefaultOldestColor: string := "#F7FAFF"
  const DefaultNewestColor: string := "#00368E"

  /** The quadrant of a bearing in [0, 360): int(dir // 90). */
  function QuadrantOf(dir: real): (q: nat)
    requires 0.0 <= dir < 360.0
    ensures q < 4
    ensures 90.0 * q as real <= dir < 90.0 * (q + 1) as real
  {
    (dir / 90.0).Floor
  }

  /** The list index int(dir // 90) of quadrant_count as Python resolves
      it: indexes 0 to 3 name a quadrant, -4 to -1 count from the end, and
      any other index raises IndexError. */
  function QuadrantIndex(dir: real): (q: Option<nat>)
    ensures q.Some? <==> -360.0 <= dir < 360.0
    ensures q.Some? ==> q.value < 4
    ensures 0.0 <= dir < 360.0 ==> q == Some(QuadrantOf(dir))
  {
    var k := (dir / 90.0).Floor;
    if -4 <= k < 0 then Some(k + 4) else if 0 <= k < 4 then Some(k) else None
  }

  /** A sample the counting loop of set_plot gets past: None // 90 raises
      TypeError, and a direction outside [-360, 360) raises IndexError. */
  predicate CountableAsWritten(dir: Option<real>)
  {
    dir.Some? && QuadrantIndex(dir.value).Some?
  }

  /** The quadrant_count loop of set_plot as written, over the first
      samples directions. */
  function QuadrantCountsAsWritten(dirs: seq<Option<real>>, samples: nat): (r: Outcome<seq<nat>>)
    requires samples <= |dirs|
    ensures r.Returns? <==> forall i :: 0 <= i < samples ==> CountableAsWritten(dirs[i])
    ensures r.Returns? ==> |r.value| == 4
  {
    if samples == 0 then Returns([0, 0, 0, 0])
    else
      var before := QuadrantCountsAsWritten(dirs, samples - 1);
      var dir := dirs[samples - 1];
      if before.Raises? || !CountableAsWritten(dir) then Raises
      else
        var q := QuadrantIndex(dir.value).value;
        Returns(before.value[q := before.value[q] + 1])
  }

  /** A calm sample with no direction, and a bearing of 360, each stop the
      count as written. */
  lemma QuadrantCountRaises()
    ensures QuadrantCountsAsWritten([None], 1).Raises?
    ensures QuadrantCountsAsWritten([Some(360.0)], 1).Raises?
  {
    assert !CountableAsWritten([Some(360.0)][0]);
  }

  /** The quadrant of a present direction, the direction taken modulo 360
      as its bearing. */
  function BearingQuadrant(dir: real): (q: nat)
    ensures q < 4
  {
    QuadrantOf(Mod360(dir))
  }

  /** Where Python's index reaches a quadrant at all, it is the quadrant of
      the bearing. */
  lemma QuadrantIndexIsBearingQuadrant(dir: real)
    requires -360.0 <= dir < 360.0
    ensures QuadrantIndex(dir) == Some(BearingQuadrant(dir))
  {
    if dir >= 0.0 {
      Mod360Unique(dir, 0, dir);
    } else {
      Mod360Unique(dir, -1, dir + 360.0);
      assert (dir / 90.0).Floor + 4 == ((dir + 360.0) / 90.0).Floor;
    }
  }

  /** The quadrant keys of the samples that have a direction, in sample
      order; samples with no direction are skipped, as render_plot skips
      them. */
  function PresentQuadrantKeys(dirs: seq<Option<real>>, samples: nat): (keys: seq<nat>)
    requires samples <= |dirs|
    ensures |keys| <= samples
    ensures forall i :: 0 <= i < |keys| ==> keys[i] < 4
  {
    if samples == 0 then []
    else
      var dir := dirs[samples - 1];
      PresentQuadrantKeys(dirs, samples - 1) + (if dir.Some? then [BearingQuadrant(dir.value)] else [])
  }

  /** The corrected quadrant counts: a histogram of the directions present. */
  function QuadrantCounts(dirs: seq<Option<real>>, samples: nat): (counts: seq<nat>)
    requires samples <= |dirs|
    ensures |counts| == 4 && Sum(counts) <= samples
  {
    var keys := PresentQuadrantKeys(dirs, samples);
    HistogramSum(keys, 4);
    Histogram(keys, 4)
  }

  /** Each corrected count is the number of present directions in that
      quadrant. */
  lemma QuadrantCountsCount(dirs: seq<Option<real>>, samples: nat, q: nat)
    requires samples <= |dirs| && q < 4
    ensures QuadrantCounts(dirs, samples)[q] == Count(PresentQuadrantKeys(dirs, samples), q)
  {
    HistogramCounts(PresentQuadrantKeys(dirs, samples), 4, q);
  }

  /** Wherever the count as written returns, the corrected count agrees
      with it. */
  lemma {:induction false} QuadrantCountsAgree(dirs: seq<Option<real>>, samples: nat)
    requires samples <= |dirs|
    requires QuadrantCountsAsWritten(dirs, samples).Returns?
    ensures QuadrantCountsAsWritten(dirs, samples).value == QuadrantCounts(dirs, samples)
  {
    if samples > 0 {
      var dir := dirs[samples - 1];
      QuadrantCountsAgree(dirs, samples - 1);
      QuadrantIndexIsBearingQuadrant(dir.value);
      var keys := PresentQuadrantKeys(dirs, samples);
      assert keys[..|keys| - 1] == PresentQuadrantKeys(dirs, samples - 1);
    }
  }

  /** The corrected quadrant_count loop of set_plot. */
  method CountQuadrants(dirs: seq<Option<real>>, samples: nat) returns (counts: seq<nat>)
    requires samples <= |dirs|
    ensures counts == QuadrantCounts(dirs, samples)
  {
    ghost var keys: seq<nat> := [];
    counts := [0, 0, 0, 0];
    assert counts == Histogram(keys, 4);
    for i := 0 to samples
      invariant keys == PresentQuadrantKeys(dirs, i)
      invariant counts == Histogram(keys, 4)
    {
      var dir := dirs[i];
      if dir.Some? {
        var q := BearingQuadrant(dir.value);
        keys := keys + [q];
        assert keys[..|keys| - 1] == PresentQuadrantKeys(dirs, i);
        counts := counts[q := counts[q] + 1];
      }
    }
  }

  /** A quadrant is clear when it holds at most 30% of the samples. */
  predicate QuadrantClear(count: int, samples: int)
  {
    count as real <= 0.3 * samples as real
  }

  /** The first clear quadrant in order of preference, or SE (1) when none
      is. */
  function PreferredClear(counts: seq<nat>, samples: int, order: seq<nat>): (q: nat)
    requires |counts| == 4 && forall i :: 0 <= i < |order| ==> order[i] < 4
    ensures q < 4
    ensures q == 1 || (q in order && QuadrantClear(counts[q], samples))
  {
    if order == [] then 1
    else if QuadrantClear(counts[order[0]], samples) then order[0]
    else PreferredClear(counts, samples, order[1..])
  }

  /** The label-quadrant choice of set_plot. */
  method ChooseQuadrant(counts: seq<nat>, samples: int) returns (labelDir: nat)
    requires |counts| == 4
    ensures labelDir == PreferredClear(counts, samples, PreferredQuadrants)
  {
    labelDir := 1;
    var order := PreferredQuadrants;
    for i := 0 to 4
      invariant PreferredClear(counts, samples, PreferredQuadrants) == PreferredClear(counts, samples, order[i..])
    {
      assert order[i..][1..] == order[i + 1..];
      var q := order[i];
      if counts[q] as real <= 0.3 * samples as real {
        labelDir := q;
        return;
      }
    }
  }

  /** Four quadrants cannot all hold more than 30% of the samples, so the
      chosen quadrant is always clear: it is the first clear one in order
      of preference, and the fallback to SE is never needed. The corrected
      counts qualify, as Scatter.QuadrantCounts ensures. */
  lemma ChosenQuadrantIsClear(counts: seq<nat>, samples: nat)
    requires |counts| == 4 && Sum(counts) <= samples
    ensures var q := PreferredClear(counts, samples, PreferredQuadrants);
      QuadrantClear(counts[q], samples) &&
      exists j :: 0 <= j < 4 && PreferredQuadrants[j] == q && FirstClearAt(counts, samples, PreferredQuadrants, j)
  {
    SomeQuadrantClear(counts, samples);
    var w :| 0 <= w < 4 && QuadrantClear(counts[w], samples);
    assert w in PreferredQuadrants by {
      assert PreferredQuadrants == [1, 2, 0, 3];
    }
    PreferredClearIsFirst(counts, samples, PreferredQuadrants);
  }

  /** Four counts adding up to at most samples: one of them is at most 30%. */
  lemma SomeQuadrantClear(counts: seq<nat>, samples: nat)
    requires |counts| == 4 && Sum(counts) <= samples
    ensures exists q :: 0 <= q < 4 && QuadrantClear(counts[q], samples)
  {
    var a, b, c, d := counts[0], counts[1], counts[2], counts[3];
    assert a + b + c + d == Sum(counts) by {
      SumAppend([], a);
      SumAppend([a], b);
      SumAppend([a, b], c);
      SumAppend([a, b, c], d);
      assert [] + [a] == [a] && [a] + [b] == [a, b] && [a, b] + [c] == [a, b, c];
      assert counts == [a, b, c] + [d];
    }
    var q := if QuadrantClear(a, samples) then 0 else if QuadrantClear(b, samples) then 1
      else if QuadrantClear(c, samples) then 2 else 3;
    assert QuadrantClear(counts[q], samples);
  }

  /** When some quadrant of the order is clear, PreferredClear picks the
      first clear one. */
  lemma {:induction false} PreferredClearIsFirst(counts: seq<nat>, samples: int, order: seq<nat>)
    requires |counts| == 4 && forall i :: 0 <= i < |order| ==> order[i] < 4
    requires exists q :: q in order && QuadrantClear(counts[q], samples)
    ensures var q := PreferredClear(counts, samples, order);
      QuadrantClear(counts[q], samples) &&
      exists j :: 0 <= j < |order| && order[j] == q && FirstClearAt(counts, samples, order, j)
  {
    if QuadrantClear(counts[order[0]], samples) {
      assert FirstClearAt(counts, samples, order, 0);
    } else {
      var w :| w in order && QuadrantClear(counts[w], samples);
      assert w in order[1..];
      PreferredClearIsFirst(counts, samples, order[1..]);
      var q := PreferredClear(counts, samples, order);
      var j :| 0 <= j < |order[1..]| && order[1..][j] == q && FirstClearAt(counts, samples, order[1..], j);
      assert FirstClearAt(counts, samples, order, j + 1) by {
        forall k | 0 < k < j + 1
          ensures !QuadrantClear(counts[order[k]], samples)
        {
          assert order[k] == order[1..][k - 1];
        }
      }
    }
  }

  /** None of the quadrants before position j of the order is clear. */
  predicate FirstClearAt(counts: seq<nat>, samples: int, order: seq<nat>, j: int)
    requires |counts| == 4 && forall i :: 0 <= i < |order| ==> order[i] < 4
    requires 0 <= j <= |order|
  {
    forall k :: 0 <= k < j ==> !QuadrantClear(counts[order[k]], samples)
  }

  /** get_ring_label: ring r shows r / rings of the top of the speed
      scale, rounded half to even. */
  function ScatterRingLabel(maxSpeedRange: int, rings: int, ring: int): int
    requires rings > 0
  {
    RoundHalfEven(Share(maxSpeedRange as real, rings as real, ring as real))
  }

  /** The outer ring shows the top of the speed scale, and labels never
      decrease outwards. */
  lemma ScatterRingLabels(maxSpeedRange: int, rings: int, r1: int, r2: int)
    requires maxSpeedRange >= 0 && rings > 0 && r1 <= r2
    ensures ScatterRingLabel(maxSpeedRange, rings, rings) == maxSpeedRange
    ensures ScatterRingLabel(maxSpeedRange, rings, r1) <= ScatterRingLabel(maxSpeedRange, rings, r2)
  {
    OuterScatterLabel(maxSpeedRange, rings);
    ScatterLabelsOrdered(maxSpeedRange, rings, r1, r2);
  }

  lemma OuterScatterLabel(maxSpeedRange: int, rings: int)
    requires rings > 0
    ensures ScatterRingLabel(maxSpeedRange, rings, rings) == maxSpeedRange
  {
    WholeShare(maxSpeedRange as real, rings as real);
    RoundOfWhole(maxSpeedRange);
  }

  lemma ScatterLabelsOrdered(maxSpeedRange: int, rings: int, r1: int, r2: int)
    requires maxSpeedRange >= 0 && rings > 0 && r1 <= r2
    ensures ScatterRingLabel(maxSpeedRange, rings, r1) <= ScatterRingLabel(maxSpeedRange, rings, r2)
  {
    SharesOrdered(maxSpeedRange as real, rings as real, r1 as real, r2 as real);
    RoundHalfEvenMonotone(Share(maxSpeedRange as real, rings as real, r1 as real), Share(maxSpeedRange as real, rings as real, r2 as real));
  }

  /** marker_type: an empty value is no marker. */
  function MarkerType(option: Option<string>): (m: Option<string>)
    ensures m.None? <==> option.None? || option == Some("")
    ensures m.Some? ==> m == option
  {
    if option == Some("") then None else option
  }

  /** SPEED_LOOKUP: the speed unit shown on the ring labels; an unknown
      speed unit has none (the lookup fails). */
  function SpeedUnit(unit: string): (d: Option<string>)
    ensures d.Some? <==> unit in {"km_per_hour", "mile_per_hour", "meter_per_second", "knot"}
  {
    if unit == "km_per_hour" then Some("km/h")
    else if unit == "mile_per_hour" then Some("mph")
    else if unit == "meter_per_second" then Some("m/s")
    else if unit == "knot" then Some("kn")
    else None
  }

  class ScatterPlot {
    const base: PolarWindPlot
    var markerType: Option<string>
    var markerSize: int
    var lineType: Option<LineType>
    var lineWidth: int
    var lineColor: LineColor
    var oldestColor: Option<Rgb>
    var newestColor: Option<Rgb>
    var quadrantCount: seq<nat>
    var ringUnits: Option<string>

    /** __init__ of the scatter plot: no legend, the marker, the line type
        (spokes allowed), the line colour by age or fixed, and the colours
        of the oldest and newest points with their defaults. */
    constructor(base: PolarWindPlot, getrgb: GetRgb, markerType: Option<string>, markerSize: int,
                lineType: Option<string>, lineWidth: int, lineColor: Option<string>,
                oldestColor: Option<string>, newestColor: Option<string>)
      modifies base`legend
      ensures this.base == base && !base.legend
      ensures this.markerType == MarkerType(markerType) && this.markerSize == markerSize
      ensures this.lineType == ParseLineType(lineType, true) && this.lineWidth == lineWidth
      ensures this.lineColor == ScatterLineColor(getrgb, lineColor)
      ensures this.oldestColor == ParseColor(getrgb, oldestColor, Some(DefaultOldestColor))
      ensures this.newestColor == ParseColor(getrgb, newestColor, Some(DefaultNewestColor))
    {
      this.base := base;
      this.markerType := MarkerType(markerType);
      this.markerSize := markerSize;
      this.lineType := ParseLineType(lineType, true);
      this.lineWidth := lineWidth;
      this.lineColor := ScatterLineColor(getrgb, lineColor);
      this.oldestColor := ParseColor(getrgb, oldestColor, Some(DefaultOldestColor));
      this.newestColor := ParseColor(getrgb, newestColor, Some(DefaultNewestColor));
      this.quadrantCount := [];
      this.ringUnits := None;
      new;
      base.legend := false;
    }

    /** set_plot: counts the samples with a direction per quadrant (the
        corrected count), keeps the first clear quadrant in order of
        preference for the ring labels, and the speed unit they show. */
    method SetPlot(unit: string)
      requires 0 <= base.samples <= |base.dirs|
      modifies this`quadrantCount, this`ringUnits, base`labelDir
      ensures quadrantCount == QuadrantCounts(base.dirs, base.samples)
      ensures base.labelDir == Some(Quadrant(PreferredClear(quadrantCount, base.samples, PreferredQuadrants)))
      ensures ringUnits == SpeedUnit(unit)
    {
      var dirs: seq<Option<real>>, samples: nat := base.dirs, base.samples;
      var counts := CountQuadrants(dirs, samples);
      var q := ChooseQuadrant(counts, samples);
      quadrantCount := counts;
      base.labelDir := Some(Quadrant(q));
      ringUnits := SpeedUnit(unit);
    }
  }
}
