/** The polar grid: the plot diameter and origin, the legend width, the ring
    spacing, where the ring labels go and which of them get a background box.
    Text sizes come from the font and are inputs here. */
module Grid {
  import opened Py

  /** The plot diameter: the available space cut down to a multiple of 22
      pixels with int(), so that small plots are not distorted. */
  function PlotDiameter(heightBased: int, widthBased: int): (d: int)
    ensures d % 22 == 0
    ensures var m := if heightBased <= widthBased then heightBased else widthBased;
      if m >= 0 then 0 <= d <= m < d + 22 else d - 22 < m <= d <= 0
  {
    var m := if heightBased <= widthBased then heightBased else widthBased;
    TruncOfQuotient(m, 22);
    assert m as real / 22.0 == m as real / 22 as real;
    Trunc(m as real / 22.0) * 22
  }

  /** The height the plot may use: the image less the borders, the title
      and the north and south labels with their gaps. */
  function HeightBased(imageHeight: int, border: int, titleHeight: int, northHeight: int, southHeight: int): int
  {
    imageHeight - 2 * border - titleHeight - (northHeight + 1) - (southHeight + 3)
  }

  /** The width the plot may use: the image less the borders and the legend. */
  function WidthBased(imageWidth: int, border: int, legendWidth: int): int
  {
    imageWidth - 2 * border - legendWidth
  }

  /** x of the plot centre: half way across the space left of the legend,
      moved by half the difference of the west and east label widths. */
  function OriginX(imageWidth: int, legendWidth: int, eastWidth: int, westWidth: int): (x: int)
    ensures var n := imageWidth - legendWidth - eastWidth + westWidth;
      n >= 0 ==> 2 * x <= n <= 2 * x + 1
  {
    TruncOfQuotient(imageWidth - legendWidth - eastWidth + westWidth, 2);
    assert (imageWidth - legendWidth - eastWidth + westWidth) as real / 2.0 ==
      (imageWidth - legendWidth - eastWidth + westWidth) as real / 2 as real;
    Trunc((imageWidth - legendWidth - eastWidth + westWidth) as real / 2.0)
  }

  /** y of the plot centre: half way down the space below the title, moved
      by half the difference of the north and south label heights. */
  function OriginY(imageHeight: int, titleHeight: int, northHeight: int, southHeight: int): (y: int)
    ensures var n := imageHeight + titleHeight + northHeight - southHeight;
      n >= 0 ==> 2 * (y - 1) <= n <= 2 * (y - 1) + 1
  {
    TruncOfQuotient(imageHeight + titleHeight + northHeight - southHeight, 2);
    assert (imageHeight + titleHeight + northHeight - southHeight) as real / 2.0 ==
      (imageHeight + titleHeight + northHeight - southHeight) as real / 2 as real;
    1 + Trunc((imageHeight + titleHeight + northHeight - southHeight) as real / 2.0)
  }

  /** With the diameter taken from the available height, the north label
      sits below the title, and the south label reaches at most two pixels
      into the bottom border. */
  lemma PlotFitsVertically(imageHeight: int, border: int, titleHeight: int, northHeight: int,
                           southHeight: int, widthBased: int)
    requires border >= 0 && titleHeight >= 0 && northHeight >= 0 && southHeight >= 0
    requires HeightBased(imageHeight, border, titleHeight, northHeight, southHeight) >= 0
    ensures var d := PlotDiameter(HeightBased(imageHeight, border, titleHeight, northHeight, southHeight), widthBased);
      var y := OriginY(imageHeight, titleHeight, northHeight, southHeight);
      2 * (y - border - titleHeight - northHeight - 1) >= d + 2 &&
      2 * (imageHeight - border - southHeight - 1 - y) >= d
  {
  }

  /** The legend width: the widest band label, two bar widths and one and a
      half borders, truncated; zero without a legend. */
  function LegendWidth(legend: bool, textWidth: int, barWidth: int, border: int): (w: int)
    ensures !legend ==> w == 0
    ensures legend && textWidth >= 0 && barWidth >= 0 && border >= 0 ==>
      2 * (textWidth + 2 * barWidth) + 3 * border - 2 < 2 * w <= 2 * (textWidth + 2 * barWidth) + 3 * border
  {
    var n := 2 * textWidth + 4 * barWidth + 3 * border;
    assert textWidth as real + 2.0 * barWidth as real + 1.5 * border as real == n as real / 2.0;
    TruncOfQuotient(n, 2);
    assert n as real / 2.0 == n as real / 2 as real;
    if legend then Trunc(textWidth as real + 2.0 * barWidth as real + 1.5 * border as real) else 0
  }

  /** The gap between rings: the part of the radius outside the bullseye
      shared equally among the rings. */
  function RingSpace(bullseye: real, dia: int, rings: int): real
    requires rings > 0
  {
    (1.0 - bullseye) * dia as real / (2.0 * rings as real)
  }

  function BullseyeRadius(bullseye: real, dia: int): real
  {
    bullseye * dia as real / 2.0
  }

  /** Distance from the origin of the label of ring i + 1 (i counts from 0). */
  function RingLabelRadius(bullseye: real, dia: int, rings: int, i: int): real
    requires rings > 0
  {
    BullseyeRadius(bullseye, dia) + (i + 1) as real * RingSpace(bullseye, dia, rings)
  }

  /** The outermost label sits on the edge of the plot circle. */
  lemma OuterLabelOnEdge(bullseye: real, dia: int, rings: int)
    requires rings > 0
    ensures RingLabelRadius(bullseye, dia, rings, rings - 1) == dia as real / 2.0
  {
    var s := RingSpace(bullseye, dia, rings);
    assert rings as real * s == (1.0 - bullseye) * dia as real / 2.0;
  }

  /** Ring labels move strictly outwards, ring by ring. */
  lemma LabelsMoveOutwards(bullseye: real, dia: int, rings: int, i: int, j: int)
    requires rings > 0 && bullseye < 1.0 && dia > 0 && i < j
    ensures RingLabelRadius(bullseye, dia, rings, i) < RingLabelRadius(bullseye, dia, rings, j)
  {
    var s := RingSpace(bullseye, dia, rings);
    SpacePositive(1.0 - bullseye, dia as real, 2.0 * rings as real);
    ScaleLt((i + 1) as real, (j + 1) as real, s);
  }

  lemma SpacePositive(a: real, b: real, c: real)
    requires a > 0.0 && b > 0.0 && c > 0.0
    ensures a * b / c > 0.0
  {
    ScaleLt(0.0, a, b);
  }

  /** One ring label as render_polar_grid places it. */
  datatype LabelSlot = LabelSlot(ring: int, radius: real, boxed: bool)

  /** The label of ring i + 1: its distance from the origin, and whether it
      is drawn on a background box (every label but the outermost is). */
  function RingLabelSlot(bullseye: real, dia: int, rings: int, i: int): (s: LabelSlot)
    requires rings > 0 && 0 <= i < rings
    ensures s.ring == i + 1
    ensures s.radius == RingLabelRadius(bullseye, dia, rings, i)
    ensures s.boxed <==> i < rings - 1
  {
    LabelSlot(i + 1, RingLabelRadius(bullseye, dia, rings, i), i < rings - 1)
  }

  /** On a real plot the label on the edge of the circle is the only one
      without a box: boxed labels lie strictly inside the circle. */
  lemma BoxedExactlyInside(bullseye: real, dia: int, rings: int, i: int)
    requires rings > 0 && 0 <= i < rings && bullseye < 1.0 && dia > 0
    ensures var s := RingLabelSlot(bullseye, dia, rings, i);
      (s.boxed <==> s.radius < dia as real / 2.0) &&
      (!s.boxed <==> s.radius == dia as real / 2.0)
  {
    OuterLabelOnEdge(bullseye, dia, rings);
    if i < rings - 1 {
      LabelsMoveOutwards(bullseye, dia, rings, i, rings - 1);
    }
  }

  /** What label_dir holds: a rose arm (2, 6, 10 or 14 of sixteen) for the
      rose, a quadrant (0 NE, 1 SE, 2 SW, 3 NW) for the other plots. */
  datatype LabelDir = RoseArm(arm: int) | Quadrant(q: int)

  function LabelDirValue(d: LabelDir): int
  {
    match d
    case RoseArm(a) => a
    case Quadrant(q) => q
  }

  /** The diagonal render_polar_grid puts the ring labels on, as written:
      int(label_dir / 4.0), whatever kind of value label_dir holds. 0 is NE,
      1 SE, 2 SW, 3 NW. */
  function LabelDiagonalAsWritten(d: LabelDir): (k: int)
    ensures LabelDirValue(d) >= 0 ==> k == LabelDirValue(d) / 4
  {
    Trunc(LabelDirValue(d) as real / 4.0)
  }

  /** The diagonal the label direction stands for: a rose arm's diagonal,
      or the quadrant itself. */
  function LabelDiagonal(d: LabelDir): (k: int)
    ensures d.RoseArm? && d.arm >= 0 ==> k == d.arm / 4
    ensures d.Quadrant? ==> k == d.q
  {
    match d
    case RoseArm(a) => Trunc(a as real / 4.0)
    case Quadrant(q) => q
  }

  /** Compass bearing of the label diagonal; the label angle
      (3.5 + k) * pi / 2 in screen coordinates points this way. */
  function DiagonalBearing(k: int): (b: int)
    ensures 0 <= k <= 3 ==> b == 45 + 90 * k
  {
    (45 + 90 * k) % 360
  }

  /** For the rose both readings agree: arms 2, 6, 10 and 14 give NE, SE,
      SW and NW. */
  lemma RoseArmsAgree(a: int)
    requires a in {2, 6, 10, 14}
    ensures LabelDiagonalAsWritten(RoseArm(a)) == LabelDiagonal(RoseArm(a)) == (a - 2) / 4
  {
  }

  /** For every other plot the formula as written puts the labels on the NE
      diagonal whatever quadrant was chosen, so the labels of a quadrant
      chosen because NE is crowded land in NE after all. */
  lemma QuadrantsCollapseToNorthEast(q: int)
    requires 0 <= q <= 3
    ensures LabelDiagonalAsWritten(Quadrant(q)) == 0
    ensures LabelDiagonal(Quadrant(q)) == q
    ensures DiagonalBearing(LabelDiagonal(Quadrant(q))) == 45 + 90 * q
  {
  }
}
