/** Speed ranges: the top of the speed scale, the seven band boundaries
    derived from it, the band a sample falls in, and the band colour used
    for a speed. */
module SpeedBands {
  import opened Py

  /** Each band boundary as a proportion of the top of the speed scale. */
  const SpeedFactors: seq<real> := [0.0, 0.1, 0.2, 0.3, 0.5, 0.7, 1.0]

  /** A speed vector as read from the archive: None where there was no data. */
  type Speeds = seq<Option<real>>

  predicate HasSpeed(speeds: Speeds)
  {
    exists i :: 0 <= i < |speeds| && speeds[i].Some?
  }

  /** The largest speed present, ignoring gaps; None when every entry is a
      gap. This is what Python 2's max() gives, since there None orders
      below every number. */
  function MaxSpeed(speeds: Speeds): (r: Option<real>)
    ensures r.Some? <==> HasSpeed(speeds)
    ensures r.Some? ==> forall i :: 0 <= i < |speeds| && speeds[i].Some? ==> speeds[i].value <= r.value
    ensures r.Some? ==> exists i :: 0 <= i < |speeds| && speeds[i] == r
  {
    if speeds == [] then None
    else
      var n := |speeds| - 1;
      var before := MaxSpeed(speeds[..n]);
      assert forall i :: 0 <= i < n ==> speeds[..n][i] == speeds[i];
      match (before, speeds[n])
      case (None, last) => last
      case (Some(m), None) => before
      case (Some(m), Some(v)) => if v > m then speeds[n] else before
  }

  /** max() of the speed vector in Python 3 as add_data calls it: an empty
      vector raises ValueError, and a gap raises TypeError (None cannot be
      compared with a number, and a lone None cannot be divided by 10).
      None here means the call raises. */
  function MaxSpeedPy3(speeds: Speeds): (r: Option<real>)
    ensures r.Some? <==> |speeds| > 0 && forall i :: 0 <= i < |speeds| ==> speeds[i].Some?
  {
    if |speeds| > 0 && forall i :: 0 <= i < |speeds| ==> speeds[i].Some? then MaxSpeed(speeds)
    else None
  }

  /** Without gaps the Python 3 maximum is the same as the gap-ignoring one. */
  lemma MaxSpeedPy3WithoutGaps(speeds: Speeds)
    requires |speeds| > 0 && forall i :: 0 <= i < |speeds| ==> speeds[i].Some?
    ensures MaxSpeedPy3(speeds) == MaxSpeed(speeds)
  {
  }

  /** A single gap is enough to make the Python 3 maximum raise, although a
      maximum exists. */
  lemma MaxSpeedPy3RaisesOnGap()
    ensures MaxSpeedPy3([None, Some(5.0)]).None?
    ensures MaxSpeed([None, Some(5.0)]) == Some(5.0)
  {
    var s: Speeds := [None, Some(5.0)];
    assert s[1].Some?;
    assert s[0].None?;
  }

  /** The top of the speed scale: the maximum speed rounded up to the next
      multiple of 10, strictly above it. */
  function MaxSpeedRange(maxSpeed: real): (r: int)
    ensures maxSpeed >= 0.0 ==> r % 10 == 0 && r >= 10
    ensures maxSpeed >= 0.0 ==> maxSpeed < r as real <= maxSpeed + 10.0
  {
    (Trunc(maxSpeed / 10.0) + 1) * 10
  }

  /** The seven band boundaries for a given top of scale. */
  function SpeedList(maxSpeedRange: int): (sl: seq<real>)
    ensures |sl| == 7
    ensures forall i :: 0 <= i < 7 ==> sl[i] == SpeedFactors[i] * maxSpeedRange as real
  {
    seq(7, i requires 0 <= i < 7 => SpeedFactors[i] * maxSpeedRange as real)
  }

  predicate Ascending(sl: seq<real>)
  {
    forall i, j :: 0 <= i < j < |sl| ==> sl[i] < sl[j]
  }

  /** With a positive top of scale the boundaries start at 0, end at the top
      of scale and strictly increase. */
  lemma SpeedListShape(maxSpeedRange: int)
    requires maxSpeedRange > 0
    ensures SpeedList(maxSpeedRange)[0] == 0.0
    ensures SpeedList(maxSpeedRange)[6] == maxSpeedRange as real
    ensures Ascending(SpeedList(maxSpeedRange))
  {
    var sl := SpeedList(maxSpeedRange);
    var m := maxSpeedRange as real;
    assert sl == [0.0, 0.1 * m, 0.2 * m, 0.3 * m, 0.5 * m, 0.7 * m, 1.0 * m];
  }

  /** The speed band (column of the rose table) of a sample with a speed:
      6 above the sixth boundary down to 2 above the second, 1 for any
      other positive speed, 0 for calm. */
  function Band(speed: real, sl: seq<real>): (b: int)
    requires |sl| == 7
    ensures 0 <= b <= 6
  {
    if speed > sl[5] then 6
    else if speed > sl[4] then 5
    else if speed > sl[3] then 4
    else if speed > sl[2] then 3
    else if speed > sl[1] then 2
    else if speed > 0.0 then 1
    else 0
  }

  /** The lower boundary of each band: 0 for band 1, sl[b - 1] above. */
  function BandFloor(b: int, sl: seq<real>): real
    requires |sl| == 7 && 1 <= b <= 6
  {
    if b == 1 then 0.0 else sl[b - 1]
  }

  /** A faster sample never falls in a lower band. */
  lemma BandMonotone(s1: real, s2: real, sl: seq<real>)
    requires |sl| == 7 && s1 <= s2
    ensures Band(s1, sl) <= Band(s2, sl)
  {
  }

  /** With ascending boundaries starting at 0 each band is a half-open
      interval: band b > 0 holds exactly the speeds in (floor, ceiling],
      where band 6 has no ceiling and band 0 holds everything up to 0. */
  lemma BandInterval(speed: real, sl: seq<real>, b: int)
    requires |sl| == 7 && Ascending(sl) && sl[0] == 0.0
    requires 0 <= b <= 6
    ensures Band(speed, sl) == b <==>
      if b == 0 then speed <= 0.0
      else if b == 6 then speed > sl[5]
      else BandFloor(b, sl) < speed <= sl[b]
  {
  }

  /** The highest boundary among sl[0..k] that the speed exceeds. */
  function HighestExceeded(speed: real, sl: seq<real>, k: int): (r: Option<int>)
    requires |sl| == 7 && k < 7
    ensures r.Some? ==> 0 <= r.value <= k && speed > sl[r.value]
    ensures r.Some? ==> forall j :: r.value < j <= k ==> speed <= sl[j]
    ensures r.None? ==> forall j :: 0 <= j <= k ==> speed <= sl[j]
    decreases k + 1
  {
    if k < 0 then None
    else if speed > sl[k] then Some(k)
    else HighestExceeded(speed, sl, k - 1)
  }

  /** get_speed_color for a speed-banded line: the colour one above the
      highest of the first six boundaries exceeded, None at or below the
      first. */
  function SpeedColor(speed: real, sl: seq<real>, colors: seq<string>): (c: Option<string>)
    requires |sl| == 7 && |colors| >= 7
  {
    match HighestExceeded(speed, sl, 5)
    case None => None
    case Some(k) => Some(colors[k + 1])
  }

  /** The speed colour of a positive speed is the colour of its rose band,
      and there is none for a calm speed, so plots coloured by speed agree
      with the rose and its legend. */
  lemma SpeedColorIsBandColor(speed: real, sl: seq<real>, colors: seq<string>)
    requires |sl| == 7 && Ascending(sl) && sl[0] == 0.0 && |colors| >= 7
    ensures speed > 0.0 ==> SpeedColor(speed, sl, colors) == Some(colors[Band(speed, sl)])
    ensures speed <= 0.0 ==> SpeedColor(speed, sl, colors).None?
  {
  }
}
