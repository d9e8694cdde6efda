/** The wind rose of the current revision (PolarWindRosePlot): samples are
    counted into a table of petals by speed bands, with an extra row for
    calm samples; the petal totals set the value of the outer ring, a
    clear diagonal arm carries the ring labels, and each petal is drawn as
    nested slices whose radii grow with the cumulative count. */
module Rose {
  import opened Py
  import opened Counting
  import opened SpeedBands
  import opened Grid
  import opened Plot

  const DefaultPetals: int := 16
  const DefaultPetalWidth: real := 0.8
  const DefaultBullseye: real := 0.1

  /** The petal count __init__ accepts: 2 to 360, the default otherwise. */
  function CheckedPetals(petals: int): (p: int)
    ensures 2 <= p <= 360
    ensures 2 <= petals <= 360 ==> p == petals
    ensures !(2 <= petals <= 360) ==> p == DefaultPetals
  {
    if petals < 2 || petals > 360 then DefaultPetals else petals
  }

  /** Petal width and bullseye, as a proportion: 0.01 to 1, the default
      otherwise. */
  function CheckedProportion(x: real, default: real): (r: real)
    ensures 0.01 <= x <= 1.0 ==> r == x
    ensures !(0.01 <= x <= 1.0) ==> r == default
  {
    if x < 0.01 || x > 1.0 then default else x
  }

  /** Checking a checked value changes nothing, and with the defaults every
      checked value is in range. */
  lemma CheckedValuesInRange(petals: int, x: real)
    ensures CheckedPetals(CheckedPetals(petals)) == CheckedPetals(petals)
    ensures 0.01 <= CheckedProportion(x, DefaultPetalWidth) <= 1.0
    ensures 0.01 <= CheckedProportion(x, DefaultBullseye) <= 1.0
  {
  }

  // ---------------------------------------------------------------------
  // Binning

  /** The petal of a bearing: petals are centred on multiples of
      360/petals degrees, starting at north. */
  function Petal(dir: real, petals: int): (p: int)
    requires petals > 0
    ensures 0 <= p < petals
  {
    Trunc((dir + 180.0 / petals as real) / (360.0 / petals as real)) % petals
  }

  /** A bearing in [0, 360) lies within half a petal of the centre of its
      petal; petal 0 (north) also takes the last half petal below 360. */
  lemma PetalCentred(dir: real, petals: int)
    requires petals > 0 && 0.0 <= dir < 360.0
    ensures var p := Petal(dir, petals);
      var w := 360.0 / petals as real;
      (p as real * w - w / 2.0 <= dir < p as real * w + w / 2.0) ||
      (p == 0 && 360.0 - w / 2.0 <= dir)
  {
    var n := petals as real;
    var w := 360.0 / n;
    assert n * w == 360.0;
    assert 180.0 / n == w / 2.0;
    assert dir + 180.0 / n == dir + w / 2.0;
    ShareOfTurn(dir, w, petals);
    PetalOfShare(petals, Trunc((dir + 180.0 / n) / w));
  }

  lemma PetalOfShare(petals: int, f: int)
    requires 0 <= f <= petals && petals > 0
    ensures f % petals == if f < petals then f else 0
  {
    if f == petals {
      assert f % petals == 0;
    }
  }

  /** The whole number of widths w in dir + w / 2, when n widths make a
      turn. */
  lemma ShareOfTurn(dir: real, w: real, n: int)
    requires n > 0 && w > 0.0 && n as real * w == 360.0 && 0.0 <= dir < 360.0
    ensures var f := Trunc((dir + w / 2.0) / w);
      0 <= f <= n &&
      f as real * w - w / 2.0 <= dir < f as real * w + w / 2.0 &&
      (f == n ==> 360.0 - w / 2.0 <= dir)
  {
    TruncScaled(dir + w / 2.0, w);
    WidthsInTurn(dir, w, n, Trunc((dir + w / 2.0) / w));
  }

  lemma WidthsInTurn(dir: real, w: real, n: int, f: int)
    requires n > 0 && w > 0.0 && n as real * w == 360.0 && 0.0 <= dir < 360.0
    requires f as real * w <= dir + w / 2.0 < (f + 1) as real * w
    ensures 0 <= f <= n
    ensures f as real * w - w / 2.0 <= dir < f as real * w + w / 2.0
    ensures f == n ==> 360.0 - w / 2.0 <= dir
  {
    assert (n as real + 1.0) * w == n as real * w + w;
    assert dir + w / 2.0 < n as real * w + w;
    assert f as real * w < (n as real + 1.0) * w;
    ScaleCancel(f as real, n as real + 1.0, w);
    assert (f + 1) as real * w == f as real * w + w;
    if f < 0 {
      ScaleLe(f as real, -1.0, w);
    }
  }

  /** The table cell of one sample: calm (row petals, column 6) when the
      speed or the direction is missing, otherwise its petal and its speed
      band. */
  function Classify(speed: Option<real>, dir: Option<real>, petals: int, sl: seq<real>): (c: Cell)
    requires petals > 0 && |sl| == 7
    ensures c.row <= petals && c.col <= 6
    ensures c.row == petals <==> speed.None? || dir.None?
    ensures c.row == petals ==> c.col == 6
  {
    if speed.None? || dir.None? then Cell(petals, 6)
    else Cell(Petal(dir.value, petals), Band(speed.value, sl))
  }

  /** The cells of the first n samples. */
  function Cells(speeds: Speeds, dirs: seq<Option<real>>, n: nat, petals: int, sl: seq<real>): (cs: seq<Cell>)
    requires n <= |speeds| && n <= |dirs| && petals > 0 && |sl| == 7
    ensures |cs| == n && CellsWithin(cs, petals + 1, 7)
    ensures forall i :: 0 <= i < n ==> cs[i] == Classify(speeds[i], dirs[i], petals, sl)
  {
    seq(n, i requires 0 <= i < n => Classify(speeds[i], dirs[i], petals, sl))
  }

  /** The wind_bin table of the first samples: a row per petal and the
      calm row, a column per speed band. */
  function WindBins(speeds: Speeds, dirs: seq<Option<real>>, samples: nat, petals: int, sl: seq<real>): (t: Table)
    requires samples <= |speeds| && samples <= |dirs| && petals > 0 && |sl| == 7
    ensures IsTable(t, petals + 1, 7)
  {
    Tally(Cells(speeds, dirs, samples, petals, sl), petals + 1, 7)
  }

  /** The counting loop of set_plot: one increment per sample. */
  method TallyWindBins(speeds: Speeds, dirs: seq<Option<real>>, samples: nat, petals: int, sl: seq<real>)
    returns (windBin: Table)
    requires samples <= |speeds| && samples <= |dirs| && petals > 0 && |sl| == 7
    ensures windBin == WindBins(speeds, dirs, samples, petals, sl)
  {
    ghost var cells := Cells(speeds, dirs, samples, petals, sl);
    windBin := ZeroTable(petals + 1, 7);
    for i := 0 to samples
      invariant windBin == Tally(cells[..i], petals + 1, 7)
    {
      var cell := Classify(speeds[i], dirs[i], petals, sl);
      assert cells[..i + 1][..i] == cells[..i];
      windBin := Bump(windBin, cell);
    }
    assert cells[..samples] == cells;
  }

  /** The calm row holds its count in column 6 only. */
  lemma {:induction false} CalmRow(cells: seq<Cell>, petals: nat)
    requires CellsWithin(cells, petals + 1, 7)
    requires forall i :: 0 <= i < |cells| && cells[i].row == petals ==> cells[i].col == 6
    ensures var t := Tally(cells, petals + 1, 7);
      Sum(t[petals]) == t[petals][6]
  {
    var t := Tally(cells, petals + 1, 7);
    forall c | 0 <= c < 7 && c != 6
      ensures t[petals][c] == 0
    {
      TallyCounts(cells, petals + 1, 7, petals, c);
      CountAbsent(cells, Cell(petals, c));
    }
    SumOfSingle(t[petals], 6);
  }

  /** The per-band totals: each column summed over the petals, with the
      calm count added to band 0. */
  method SpeedTotals(windBin: Table, calm: nat) returns (speedBin: seq<int>)
    requires forall r :: 0 <= r < |windBin| ==> |windBin[r]| == 7
    ensures |speedBin| == 7
    ensures forall c :: 0 <= c < 7 ==> speedBin[c] == ColSum(windBin, c) + (if c == 0 then calm else 0)
  {
    speedBin := [0, 0, 0, 0, 0, 0, 0];
    speedBin := speedBin[0 := speedBin[0] + calm];
    for j := 0 to 7
      invariant |speedBin| == 7
      invariant forall c :: 0 <= c < j ==> speedBin[c] == ColSum(windBin, c) + (if c == 0 then calm else 0)
      invariant forall c :: j <= c < 7 ==> speedBin[c] == (if c == 0 then calm else 0)
    {
      ghost var before := speedBin;
      for i := 0 to |windBin|
        invariant |speedBin| == 7
        invariant speedBin[j] == ColSum(windBin[..i], j) + (if j == 0 then calm else 0)
        invariant forall c :: 0 <= c < 7 && c != j ==> speedBin[c] == before[c]
      {
        assert windBin[..i + 1][..i] == windBin[..i];
        speedBin := speedBin[j := speedBin[j] + windBin[i][j]];
      }
      assert windBin[..|windBin|] == windBin;
    }
  }

  /** The band totals add up to the petal table plus the calm count. */
  lemma SpeedTotalsSum(windBin: Table, calm: nat, speedBin: seq<int>)
    requires forall r :: 0 <= r < |windBin| ==> |windBin[r]| == 7
    requires |speedBin| == 7
    requires forall c :: 0 <= c < 7 ==> speedBin[c] == ColSum(windBin, c) + (if c == 0 then calm else 0)
    ensures Sum(speedBin) == TableSum(windBin) + calm
  {
    var totals := ColumnTotals(windBin, 7);
    ColumnTotalsSum(windBin, 7);
    SumUpdate(totals, 0, calm);
    assert speedBin == totals[0 := totals[0] + calm];
  }

  /** Every sample is counted once: the petal table and the calm count
      together hold all the samples. */
  lemma {:induction false} RoseConservesSamples(speeds: Speeds, dirs: seq<Option<real>>, samples: nat,
                                                petals: int, sl: seq<real>)
    requires samples <= |speeds| && samples <= |dirs| && petals > 0 && |sl| == 7
    ensures var full := WindBins(speeds, dirs, samples, petals, sl);
      TableSum(full[..petals]) + full[petals][6] == samples
  {
    var cells := Cells(speeds, dirs, samples, petals, sl);
    var full := Tally(cells, petals + 1, 7);
    TallySum(cells, petals + 1, 7);
    CalmRow(cells, petals);
    TableSumSplit(full, petals);
    var rest := full[petals..];
    assert rest == [full[petals]];
    assert rest[..0] == [];
  }

  // ---------------------------------------------------------------------
  // The outer ring

  /** The largest petal total. */
  function MaxRowSum(t: Table): (m: int)
    requires |t| > 0
    ensures forall r :: 0 <= r < |t| ==> Sum(t[r]) <= m
    ensures exists r :: 0 <= r < |t| && Sum(t[r]) == m
    ensures m >= 0
  {
    SumNonneg(t[0]);
    if |t| == 1 then Sum(t[0])
    else
      var n := |t| - 1;
      var m := MaxRowSum(t[..n]);
      assert forall r :: 0 <= r < n ==> t[..n][r] == t[r];
      if Sum(t[n]) > m then Sum(t[n]) else m
  }

  /** The value of the outer ring: the largest petal's share of the
      samples, rounded up to the next multiple of 5% strictly above it. */
  function MaxRingValue(maxRow: int, samples: int): (v: real)
    requires samples > 0 && maxRow >= 0
    ensures v == ((20 * maxRow) / samples + 1) as real * 0.05
    ensures maxRow as real / samples as real < v <= maxRow as real / samples as real + 0.05
  {
    var q := maxRow as real / (0.05 * samples as real);
    TwentiethSteps(maxRow, samples);
    TruncOfQuotient(20 * maxRow, samples);
    (Trunc(q) + 1) as real * 0.05
  }

  /** The share of maxRow in steps of 0.05: twenty times the share. */
  lemma TwentiethSteps(maxRow: int, samples: int)
    requires samples > 0
    ensures maxRow as real / (0.05 * samples as real) == (20 * maxRow) as real / samples as real
    ensures (20 * maxRow) as real / samples as real == 20.0 * (maxRow as real / samples as real)
  {
    var n := samples as real;
    var x := maxRow as real / n;
    assert x * n == maxRow as real;
    DivUnique(maxRow as real, 0.05 * n, 20.0 * x);
    DivUnique((20 * maxRow) as real, n, 20.0 * x);
  }

  lemma DivUnique(a: real, b: real, q: real)
    requires b != 0.0 && q * b == a
    ensures a / b == q
  {
  }

  // ---------------------------------------------------------------------
  // The label arm

  /** The petals on the four diagonals, in order of preference: SE, SW,
      NE, NW. */
  function ArmCandidates(petals: int): (cs: seq<int>)
    requires petals > 0
    ensures |cs| == 4 && forall i :: 0 <= i < 4 ==> 0 <= cs[i] < petals
  {
    [Trunc(petals as real * 0.375), Trunc(petals as real * 0.625),
     Trunc(petals as real * 0.125), Trunc(petals as real * 0.875)]
  }

  /** The label_dir of a candidate petal. The dictionary literal maps NE
      to 2, SE to 6, SW to 10 and NW to 14; where petal numbers coincide
      the later entry wins, so NW is looked at first. */
  function ArmLabel(i: int, petals: int): (a: int)
    requires petals > 0
    ensures a in {2, 6, 10, 14}
  {
    var cs := ArmCandidates(petals);
    if i == cs[3] then 14 else if i == cs[1] then 10 else if i == cs[0] then 6 else 2
  }

  /** With sixteen petals the candidates are the arms 6, 10, 2 and 14
      themselves; with two petals SE and NE fall on petal 0, which is
      labelled as SE, and SW and NW on petal 1, labelled as NW. */
  lemma ArmLabelsOfFewPetals()
    ensures ArmCandidates(16) == [6, 10, 2, 14]
    ensures forall i :: 0 <= i < 4 ==> ArmLabel(ArmCandidates(16)[i], 16) == ArmCandidates(16)[i]
    ensures ArmCandidates(2) == [0, 1, 0, 1]
    ensures ArmLabel(0, 2) == 6 && ArmLabel(1, 2) == 14
  {
    assert Trunc(16.0 * 0.375) == 6 && Trunc(16.0 * 0.625) == 10;
    assert Trunc(16.0 * 0.125) == 2 && Trunc(16.0 * 0.875) == 14;
    assert Trunc(2.0 * 0.375) == 0 && Trunc(2.0 * 0.625) == 1;
    assert Trunc(2.0 * 0.125) == 0 && Trunc(2.0 * 0.875) == 1;
  }

  /** An arm is clear when its share of the samples is at most 30% of the
      outer ring value. */
  predicate ArmClear(rowSum: int, samples: int, maxRingVal: real)
    requires samples > 0
  {
    rowSum as real / samples as real <= 0.3 * maxRingVal
  }

  /** The totals of the four candidate petals, in order of preference. */
  function CandidateSums(windBin: Table, petals: int): (sums: seq<int>)
    requires petals > 0 && |windBin| == petals
    ensures |sums| == 4
    ensures forall i :: 0 <= i < 4 ==> sums[i] == Sum(windBin[ArmCandidates(petals)[i]])
  {
    var cs := ArmCandidates(petals);
    seq(4, i requires 0 <= i < 4 => Sum(windBin[cs[i]]))
  }

  /** Position of the first clear candidate, or |sums| when none is clear. */
  function FirstClear(sums: seq<int>, samples: int, maxRingVal: real): (k: int)
    requires samples > 0
    ensures 0 <= k <= |sums|
    ensures forall j :: 0 <= j < k ==> !ArmClear(sums[j], samples, maxRingVal)
    ensures k < |sums| ==> ArmClear(sums[k], samples, maxRingVal)
  {
    if sums == [] then 0
    else if ArmClear(sums[0], samples, maxRingVal) then 0
    else 1 + FirstClear(sums[1..], samples, maxRingVal)
  }

  /** Position of the first smallest entry. */
  function FirstMinimum(sums: seq<int>): (k: int)
    requires |sums| > 0
    ensures 0 <= k < |sums|
    ensures forall j :: 0 <= j < |sums| ==> sums[k] <= sums[j]
    ensures forall j :: 0 <= j < k ==> sums[k] < sums[j]
  {
    if |sums| == 1 then 0
    else
      var n := |sums| - 1;
      var k := FirstMinimum(sums[..n]);
      assert forall j :: 0 <= j < n ==> sums[..n][j] == sums[j];
      if sums[n] < sums[k] then n else k
  }

  /** The arm the ring labels go on: the first clear candidate in order
      of preference, or, when none is clear, the first of the least
      crowded. */
  function LabelArm(sums: seq<int>, petals: int, samples: int, maxRingVal: real): (a: int)
    requires petals > 0 && samples > 0 && |sums| == 4
    ensures a in {2, 6, 10, 14}
  {
    var k := FirstClear(sums, samples, maxRingVal);
    ArmLabel(ArmCandidates(petals)[if k < 4 then k else FirstMinimum(sums)], petals)
  }

  /** The label-arm choice of set_plot: a for loop that stops at the first
      clear candidate, and its else branch that keeps the strictly
      smallest total seen, starting from one more than any petal can
      hold. */
  method ChooseLabelArm(windBin: Table, petals: int, samples: int, maxRingVal: real) returns (labelDir: int)
    requires petals > 0 && samples > 0 && |windBin| == petals
    requires forall r :: 0 <= r < petals ==> Sum(windBin[r]) <= samples
    ensures labelDir == LabelArm(CandidateSums(windBin, petals), petals, samples, maxRingVal)
  {
    var cs := ArmCandidates(petals);
    ghost var sums := CandidateSums(windBin, petals);
    for i := 0 to 4
      invariant forall j :: 0 <= j < i ==> !ArmClear(sums[j], samples, maxRingVal)
    {
      if Sum(windBin[cs[i]]) as real / samples as real <= 0.3 * maxRingVal {
        assert FirstClear(sums, samples, maxRingVal) == i by {
          FirstClearAt(sums, samples, maxRingVal, i);
        }
        labelDir := ArmLabel(cs[i], petals);
        return;
      }
    }
    FirstClearAt(sums, samples, maxRingVal, 4);
    var labelCount := samples + 1;
    var chosen: Option<int> := None;
    ghost var best := 0;
    for i := 0 to 4
      invariant chosen.None? <==> i == 0
      invariant i > 0 ==> 0 <= best < i && best == FirstMinimum(sums[..i])
      invariant i > 0 ==> labelCount == sums[best] && chosen == Some(ArmLabel(cs[best], petals))
      invariant i == 0 ==> labelCount == samples + 1
    {
      assert sums[..i + 1][..i] == sums[..i];
      if Sum(windBin[cs[i]]) < labelCount {
        labelCount := Sum(windBin[cs[i]]);
        chosen := Some(ArmLabel(cs[i], petals));
        best := i;
      }
    }
    assert sums[..4] == sums;
    labelDir := chosen.value;
  }

  /** FirstClear is k when the first k candidates are not clear and the
      next one is, or when k is the end. */
  lemma {:induction false} FirstClearAt(sums: seq<int>, samples: int, maxRingVal: real, k: int)
    requires samples > 0 && 0 <= k <= |sums|
    requires forall j :: 0 <= j < k ==> !ArmClear(sums[j], samples, maxRingVal)
    requires k < |sums| ==> ArmClear(sums[k], samples, maxRingVal)
    ensures FirstClear(sums, samples, maxRingVal) == k
  {
    if sums != [] && k > 0 {
      FirstClearAt(sums[1..], samples, maxRingVal, k - 1);
    }
  }

  /** The chosen arm is clear whenever some candidate is, and no candidate
      before it in order of preference is; otherwise none is clear and no
      candidate holds fewer samples. */
  lemma LabelArmChoice(sums: seq<int>, petals: int, samples: int, maxRingVal: real)
    requires petals > 0 && samples > 0 && |sums| == 4
    ensures var k := FirstClear(sums, samples, maxRingVal);
      var chosen := if k < 4 then k else FirstMinimum(sums);
      LabelArm(sums, petals, samples, maxRingVal) == ArmLabel(ArmCandidates(petals)[chosen], petals) &&
      (k < 4 ==> ArmClear(sums[chosen], samples, maxRingVal) &&
                 forall j :: 0 <= j < chosen ==> !ArmClear(sums[j], samples, maxRingVal)) &&
      (k == 4 ==> (forall j :: 0 <= j < 4 ==> !ArmClear(sums[j], samples, maxRingVal) && sums[chosen] <= sums[j]))
  {
  }

  // ---------------------------------------------------------------------
  // Ring labels and petal radii

  /** get_ring_label: ring 1 has no label; ring r shows r / rings of the
      outer ring value as a whole percentage, rounded half to even. */
  function RoseRingLabel(maxRingVal: real, rings: int, ring: int): (text: Option<int>)
    requires rings > 0
    ensures text.Some? <==> ring > 1
  {
    if ring > 1 then Some(RoundHalfEven(Share(maxRingVal, rings as real, ring as real) * 100.0)) else None
  }

  /** The outer ring is labelled with its own value, a whole multiple of
      5%. */
  lemma OuterRoseLabel(maxRow: int, samples: int, rings: int)
    requires samples > 0 && maxRow >= 0 && rings > 1
    ensures RoseRingLabel(MaxRingValue(maxRow, samples), rings, rings) == Some(5 * ((20 * maxRow) / samples + 1))
  {
    var v := MaxRingValue(maxRow, samples);
    var k := (20 * maxRow) / samples;
    WholeShare(v, rings as real);
    assert v * 100.0 == (5 * (k + 1)) as real;
    RoundOfWhole(5 * (k + 1));
  }

  /** Ring labels never decrease outwards. */
  lemma RoseLabelsIncrease(v: real, rings: int, r1: int, r2: int)
    requires v >= 0.0 && rings > 0 && 1 < r1 <= r2
    ensures RoseRingLabel(v, rings, r1).value <= RoseRingLabel(v, rings, r2).value
  {
    SharesOrdered(v, rings as real, r1 as real, r2 as real);
    RoundHalfEvenMonotone(Share(v, rings as real, r1 as real) * 100.0, Share(v, rings as real, r2 as real) * 100.0);
  }

  /** Radius in pixels of the slice of a petal that holds cum samples. */
  function PetalRadius(bRadius: real, petalSpace: real, maxRingVal: real, samples: int, cum: int): int
    requires maxRingVal > 0.0 && samples > 0
  {
    SliceRadius(bRadius, petalSpace, Proportion(cum, maxRingVal, samples))
  }

  /** int() of the bullseye radius plus a share of the petal space. */
  function SliceRadius(bRadius: real, petalSpace: real, share: real): int
  {
    Trunc(bRadius + share * petalSpace)
  }

  /** The share of the outer ring value that cum samples stand for. */
  function Proportion(cum: int, maxRingVal: real, samples: int): real
    requires maxRingVal > 0.0 && samples > 0
  {
    cum as real / (maxRingVal * samples as real)
  }

  lemma ProportionBounds(c1: int, c2: int, maxRingVal: real, samples: int)
    requires maxRingVal > 0.0 && samples > 0 && 0 <= c1 <= c2
    requires c2 as real / samples as real < maxRingVal
    ensures 0.0 <= Proportion(c1, maxRingVal, samples) <= Proportion(c2, maxRingVal, samples) < 1.0
  {
    var s := samples as real;
    var d := maxRingVal * s;
    ScaleLt(0.0, maxRingVal, s);
    BelowProduct(c2 as real, s, maxRingVal);
    ShareMonotone(c1 as real, c2 as real, d);
    ShareBelowOne(c2 as real, d);
    assert Proportion(c1, maxRingVal, samples) == c1 as real / d;
    assert Proportion(c2, maxRingVal, samples) == c2 as real / d;
  }

  lemma BelowProduct(c: real, s: real, m: real)
    requires s > 0.0 && c / s < m
    ensures c < m * s
  {
    ScaleLt(c / s, m, s);
  }

  lemma ShareMonotone(a: real, b: real, d: real)
    requires 0.0 <= a <= b && d > 0.0
    ensures 0.0 <= a / d <= b / d
  {
    if b / d < a / d {
      ScaleLt(b / d, a / d, d);
    }
  }

  lemma ShareBelowOne(c: real, d: real)
    requires c < d && d > 0.0
    ensures c / d < 1.0
  {
    if c / d >= 1.0 {
      ScaleLe(1.0, c / d, d);
    }
  }

  /** int() of bullseye plus a share p of the petal space, for shares in
      [0, 1]: ordered as the shares, and between the bullseye and the
      outer edge. */
  lemma SliceRadii(bRadius: real, petalSpace: real, p1: real, p2: real)
    requires bRadius >= 0.0 && petalSpace >= 0.0 && 0.0 <= p1 <= p2 <= 1.0
    ensures Trunc(bRadius) <= SliceRadius(bRadius, petalSpace, p1) <= SliceRadius(bRadius, petalSpace, p2)
    ensures SliceRadius(bRadius, petalSpace, p2) as real <= bRadius + petalSpace
  {
    var x1 := bRadius + p1 * petalSpace;
    var x2 := bRadius + p2 * petalSpace;
    ScaleLe(0.0, p1, petalSpace);
    ScaleLe(p1, p2, petalSpace);
    ScaleLe(p2, 1.0, petalSpace);
    assert bRadius <= x1 <= x2 <= bRadius + petalSpace;
    TruncMonotone(bRadius, x1);
    TruncMonotone(x1, x2);
    assert Trunc(x2) as real <= x2;
  }

  /** Slices with more samples are never smaller, no slice is smaller than
      the bullseye, and a petal that holds less than the outer ring value
      stays inside bullseye plus petal space (the plot circle). */
  lemma PetalRadiusBounds(bRadius: real, petalSpace: real, maxRingVal: real, samples: int, c1: int, c2: int)
    requires maxRingVal > 0.0 && samples > 0 && bRadius >= 0.0 && petalSpace >= 0.0
    requires 0 <= c1 <= c2 && c2 as real / samples as real < maxRingVal
    ensures Trunc(bRadius) <= PetalRadius(bRadius, petalSpace, maxRingVal, samples, c1)
    ensures PetalRadius(bRadius, petalSpace, maxRingVal, samples, c1) <= PetalRadius(bRadius, petalSpace, maxRingVal, samples, c2)
    ensures PetalRadius(bRadius, petalSpace, maxRingVal, samples, c2) as real <= bRadius + petalSpace
  {
    ProportionBounds(c1, c2, maxRingVal, samples);
    SliceRadii(bRadius, petalSpace, Proportion(c1, maxRingVal, samples), Proportion(c2, maxRingVal, samples));
  }

  /** The computation of set_plot on the data: the petal table (without
      the calm row), the band totals with the calm count in band 0, the
      outer ring value and the label arm. */
  method BinSamples(speeds: Speeds, dirs: seq<Option<real>>, samples: int, petals: int, sl: seq<real>)
    returns (rows: Table, totals: seq<int>, ringVal: real, arm: int)
    requires petals > 0 && |sl| == 7 && 0 < samples <= |speeds| && samples <= |dirs|
    ensures var full := WindBins(speeds, dirs, samples, petals, sl);
      rows == full[..petals] && |totals| == 7 &&
      forall c :: 0 <= c < 7 ==> totals[c] == ColSum(rows, c) + (if c == 0 then full[petals][6] else 0)
    ensures |rows| == petals && Sum(totals) == samples
    ensures ringVal == MaxRingValue(MaxRowSum(rows), samples)
    ensures arm == LabelArm(CandidateSums(rows, petals), petals, samples, ringVal)
  {
    var full := TallyWindBins(speeds, dirs, samples, petals, sl);
    var calm := full[petals][6];
    RoseConservesSamples(speeds, dirs, samples, petals, sl);
    rows := full[..petals];
    totals := SpeedTotals(rows, calm);
    SpeedTotalsSum(rows, calm, totals);
    RowsWithinSamples(rows, samples - calm);
    ringVal := MaxRingValue(MaxRowSum(rows), samples);
    arm := ChooseLabelArm(rows, petals, samples, ringVal);
  }

  /** No petal holds more than the whole table. */
  lemma RowsWithinSamples(rows: Table, total: int)
    requires TableSum(rows) == total
    ensures forall r :: 0 <= r < |rows| ==> Sum(rows[r]) <= total
  {
    forall r | 0 <= r < |rows|
      ensures Sum(rows[r]) <= total
    {
      RowAtMostTable(rows, r);
    }
  }

  /** The radii of the six slices of a petal, outermost first: slice k
      covers bands 0 to 6 - k. */
  function PetalSlices(row: seq<nat>, bRadius: real, petalSpace: real, maxRingVal: real, samples: int): (radii: seq<int>)
    requires |row| == 7 && maxRingVal > 0.0 && samples > 0
    ensures |radii| == 6
  {
    seq(6, k requires 0 <= k < 6 => PetalRadius(bRadius, petalSpace, maxRingVal, samples, Sum(row[..7 - k])))
  }

  /** The rings drawn for a petal shrink from the outermost slice inwards,
      none is inside the bullseye, and for a petal below the outer ring
      value all lie within bullseye plus petal space, the plot circle (see
      BullseyeWithin for the radius render_plot uses). */
  lemma PetalSlicesShape(row: seq<nat>, bRadius: real, petalSpace: real, maxRingVal: real, samples: int)
    requires |row| == 7 && maxRingVal > 0.0 && samples > 0 && bRadius >= 0.0 && petalSpace >= 0.0
    requires Sum(row) as real / samples as real < maxRingVal
    ensures var radii := PetalSlices(row, bRadius, petalSpace, maxRingVal, samples);
      (forall k :: 0 <= k < 5 ==> radii[k + 1] <= radii[k]) &&
      (forall k :: 0 <= k < 6 ==> Trunc(bRadius) <= radii[k] && radii[k] as real <= bRadius + petalSpace)
  {
    var radii := PetalSlices(row, bRadius, petalSpace, maxRingVal, samples);
    forall k | 0 <= k < 6
      ensures Trunc(bRadius) <= radii[k] && radii[k] as real <= bRadius + petalSpace
    {
      SliceBounds(row, bRadius, petalSpace, maxRingVal, samples, k);
    }
    forall k | 0 <= k < 5
      ensures radii[k + 1] <= radii[k]
    {
      SliceBounds(row, bRadius, petalSpace, maxRingVal, samples, k);
    }
  }

  /** The bullseye radius render_plot uses, bullseye * dia / 2, leaves a
      non-negative petal space, and the two add up to the plot radius. */
  lemma BullseyeWithin(bullseye: real, d: real)
    requires 0.0 <= bullseye <= 1.0 && d >= 0.0
    ensures 0.0 <= bullseye * d / 2.0 && 0.0 <= d / 2.0 - bullseye * d / 2.0
  {
    assert bullseye * d / 2.0 == bullseye * (d / 2.0);
    ScaleLe(0.0, bullseye, d / 2.0);
    ScaleLe(bullseye, 1.0, d / 2.0);
  }

  lemma SliceBounds(row: seq<nat>, bRadius: real, petalSpace: real, maxRingVal: real, samples: int, k: int)
    requires |row| == 7 && maxRingVal > 0.0 && samples > 0 && bRadius >= 0.0 && petalSpace >= 0.0 && 0 <= k < 6
    requires Sum(row) as real / samples as real < maxRingVal
    ensures var radii := PetalSlices(row, bRadius, petalSpace, maxRingVal, samples);
      Trunc(bRadius) <= radii[k] && radii[k] as real <= bRadius + petalSpace &&
      (k < 5 ==> radii[k + 1] <= radii[k])
  {
    assert row[..7] == row;
    var inner := Sum(row[..6 - k]);
    var outer := Sum(row[..7 - k]);
    SumPrefixMonotone(row, 6 - k, 7 - k);
    SumPrefixMonotone(row, 7 - k, 7);
    SumPrefixMonotone(row, 0, 6 - k);
    assert row[..0] == [];
    ShareMonotone(outer as real, Sum(row) as real, samples as real);
    PetalRadiusBounds(bRadius, petalSpace, maxRingVal, samples, inner, outer);
    PetalRadiusBounds(bRadius, petalSpace, maxRingVal, samples, outer, Sum(row));
  }

  class RosePlot {
    const base: PolarWindPlot
    var petals: int
    var petalWidth: real
    var bullseye: real
    var maxRingVal: real
    var windBin: Table
    var ringUnits: string

    /** __init__ of the rose: the checked petal count, petal width and
        bullseye. */
    constructor(base: PolarWindPlot, petals: int, petalWidth: real, bullseye: real)
      ensures this.base == base
      ensures this.petals == CheckedPetals(petals)
      ensures this.petalWidth == CheckedProportion(petalWidth, DefaultPetalWidth)
      ensures this.bullseye == CheckedProportion(bullseye, DefaultBullseye)
    {
      this.base := base;
      this.petals := CheckedPetals(petals);
      this.petalWidth := CheckedProportion(petalWidth, DefaultPetalWidth);
      this.bullseye := CheckedProportion(bullseye, DefaultBullseye);
      this.maxRingVal := 0.0;
      this.windBin := [];
      this.ringUnits := "";
    }

    /** set_plot: counts the samples, drops the calm row after adding it
        to band 0, totals the bands, sets the outer ring value and picks
        the label arm; the ring labels are percentages. */
    method SetPlot()
      requires 2 <= petals <= 360 && |base.speedList| == 7
      requires 0 < base.samples <= |base.speeds| && base.samples <= |base.dirs|
      modifies this`windBin, this`maxRingVal, this`ringUnits, base`speedBin, base`labelDir
      ensures var full := WindBins(base.speeds, base.dirs, base.samples, petals, base.speedList);
        windBin == full[..petals] &&
        |base.speedBin| == 7 &&
        (forall c :: 0 <= c < 7 ==> base.speedBin[c] == ColSum(windBin, c) + (if c == 0 then full[petals][6] else 0))
      ensures Sum(base.speedBin) == base.samples
      ensures maxRingVal == MaxRingValue(MaxRowSum(windBin), base.samples)
      ensures base.labelDir == Some(RoseArm(LabelArm(CandidateSums(windBin, petals), petals, base.samples, maxRingVal)))
      ensures ringUnits == "%"
    {
      var speeds, dirs, samples, sl := base.speeds, base.dirs, base.samples, base.speedList;
      var rows, totals, ringVal, arm := BinSamples(speeds, dirs, samples, petals, sl);
      base.speedBin := totals;
      base.labelDir := Some(RoseArm(arm));
      windBin := rows;
      maxRingVal := ringVal;
      ringUnits := "%";
      assert base.speeds == speeds && base.dirs == dirs && base.samples == samples && base.speedList == sl;
    }

    /** The slice radii render_plot draws for one petal, outermost (band 6)
        first; a petal without samples is not drawn. */
    method PetalRadii(a: int) returns (radii: seq<int>)
      requires 0 <= a < |windBin| && |windBin[a]| == 7
      requires maxRingVal > 0.0 && base.samples > 0
      ensures Sum(windBin[a]) > 0 ==>
        radii == PetalSlices(windBin[a], bullseye * base.maxPlotDia as real / 2.0,
                             base.maxPlotDia as real / 2.0 - bullseye * base.maxPlotDia as real / 2.0,
                             maxRingVal, base.samples)
      ensures Sum(windBin[a]) <= 0 ==> radii == []
    {
      var row := windBin[a];
      var samples := base.samples;
      var bRadius := bullseye * base.maxPlotDia as real / 2.0;
      var petalSpace := base.maxPlotDia as real / 2.0 - bRadius;
      var armSum := Sum(row);
      radii := [];
      if armSum > 0 {
        assert row[..7] == row;
        var s := 6;
        while s > 0
          invariant 0 <= s <= 6 && |radii| == 6 - s
          invariant armSum == Sum(row[..s + 1])
          invariant forall k :: 0 <= k < 6 - s ==>
            radii[k] == PetalRadius(bRadius, petalSpace, maxRingVal, samples, Sum(row[..7 - k]))
        {
          radii := radii + [PetalRadius(bRadius, petalSpace, maxRingVal, samples, armSum)];
          assert row[..s + 1][..s] == row[..s];
          armSum := armSum - row[s];
          s := s - 1;
        }
      }
    }
  }
}
