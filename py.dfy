/** The Python semantics the plot generator relies on, made explicit.

    Python's int() on a float truncates toward zero, % on floats with a
    positive modulus takes the sign of the modulus, and round() differs
    between the two revisions: Python 3 (bin/user/polarwindplot.py) rounds
    half to even, Python 2 (bin/user/polarWindPlot.py) rounds half away from
    zero.  Floats are modelled as exact reals. */
module Py {

  datatype Option<+T> = None | Some(value: T)

  /** A Python call that either raises or returns a value. */
  datatype Outcome<T> = Raises | Returns(value: T)

  /** Python's int(x) for a float x: truncation toward zero. */
  function Trunc(x: real): (r: int)
    ensures x >= 0.0 ==> r as real <= x < r as real + 1.0
    ensures x < 0.0 ==> r as real - 1.0 < x <= r as real
  {
    if x >= 0.0 then x.Floor else -((-x).Floor)
  }

  /** Dividing two integers as reals and flooring gives integer division. */
  lemma FloorOfQuotient(n: int, k: int)
    requires n >= 0 && k > 0
    ensures (n as real / k as real).Floor == n / k
  {
    var q := n / k;
    var r := n % k;
    assert n == q * k + r && 0 <= r < k;
    assert n as real == q as real * k as real + r as real;
    assert n as real / k as real == q as real + r as real / k as real;
    assert 0.0 <= r as real / k as real < 1.0;
  }

  /** int(n / k) for integers n and k > 0 under true division: the quotient
      truncated toward zero. */
  lemma TruncOfQuotient(n: int, k: int)
    requires k > 0
    ensures Trunc(n as real / k as real) == if n >= 0 then n / k else -((-n) / k)
  {
    if n >= 0 {
      FloorOfQuotient(n, k);
    } else {
      FloorOfQuotient(-n, k);
      assert -(n as real / k as real) == (-n) as real / k as real;
    }
  }

  /** The smallest integer not below x. */
  function Ceil(x: real): (r: int)
    ensures r as real - 1.0 < x <= r as real
  {
    -((-x).Floor)
  }

  /** Python's x % 360 for a float x: the result lies in [0, 360) and
      differs from x by a whole number of turns. */
  function Mod360(x: real): (r: real)
    ensures 0.0 <= r < 360.0
    ensures (x - r) / 360.0 == ((x - r) / 360.0).Floor as real
  {
    x - 360.0 * (x / 360.0).Floor as real
  }

  /** The remainder modulo 360 is the only value in [0, 360) that differs
      from x by whole turns. */
  lemma Mod360Unique(x: real, k: int, r: real)
    requires x == 360.0 * k as real + r && 0.0 <= r < 360.0
    ensures Mod360(x) == r
  {
    assert x / 360.0 == k as real + r / 360.0;
    assert (x / 360.0).Floor == k;
  }

  /** Going the other way round the circle: the remainders of x and -x add
      up to a full turn, unless both are 0. */
  lemma Mod360Negate(x: real)
    ensures Mod360(-x) == if Mod360(x) == 0.0 then 0.0 else 360.0 - Mod360(x)
  {
    var k := (x / 360.0).Floor;
    var r := Mod360(x);
    assert x == 360.0 * k as real + r;
    if r == 0.0 {
      Mod360Unique(-x, -k, 0.0);
    } else {
      Mod360Unique(-x, -k - 1, 360.0 - r);
    }
  }

  /** Python 3 round(x) (and int(round(x, 0))): halves go to the even neighbour. */
  function RoundHalfEven(x: real): (r: int)
    ensures -0.5 <= r as real - x <= 0.5
    ensures r as real - x == 0.5 || x - r as real == 0.5 ==> r % 2 == 0
  {
    var f := x.Floor;
    var d := x - f as real;
    if d < 0.5 then f
    else if d > 0.5 then f + 1
    else if f % 2 == 0 then f
    else f + 1
  }

  /** Python 2 round(x, 0): halves go away from zero. */
  function RoundHalfAway(x: real): (r: int)
    ensures -0.5 <= r as real - x <= 0.5
    ensures r as real - x == 0.5 ==> x >= 0.0
    ensures x - r as real == 0.5 ==> x < 0.0
  {
    if x >= 0.0 then (x + 0.5).Floor else -((-x + 0.5).Floor)
  }

  /** int() of a larger non-negative value is not smaller. */
  lemma TruncMonotone(x: real, y: real)
    requires 0.0 <= x <= y
    ensures Trunc(x) <= Trunc(y)
  {
  }

  /** Rounding half to even never reverses an order. */
  lemma RoundHalfEvenMonotone(x: real, y: real)
    requires x <= y
    ensures RoundHalfEven(x) <= RoundHalfEven(y)
  {
  }

  /** A non-negative amount shared out is non-negative. */
  lemma QuotientNonneg(a: real, b: real)
    requires a >= 0.0 && b > 0.0
    ensures a / b >= 0.0
  {
  }

  /** r shares of v split d ways, computed as Python does: divide first,
      then multiply (ring r of d rings out of a top value v). */
  function Share(v: real, d: real, r: real): (s: real)
    requires d != 0.0
  {
    v / d * r
  }

  /** More shares of a non-negative amount are no less. */
  lemma SharesOrdered(v: real, d: real, a: real, b: real)
    requires v >= 0.0 && d > 0.0 && a <= b
    ensures Share(v, d, a) <= Share(v, d, b)
  {
    var w := v / d;
    assert w >= 0.0;
    ProductNonNegative(w, b - a);
    assert w * b - w * a == w * (b - a);
  }

  /** All d shares make up the whole again. */
  lemma WholeShare(v: real, d: real)
    requires d > 0.0
    ensures Share(v, d, d) == v
  {
    var w := v / d;
    assert w * d == v;
  }

  /** The product of two non-negative values is non-negative. */
  lemma ProductNonNegative(a: real, b: real)
    requires a >= 0.0 && b >= 0.0
    ensures a * b >= 0.0
  {
  }

  /** Scaling by a non-negative factor keeps an order. */
  lemma ScaleLe(a: real, b: real, w: real)
    requires a <= b && w >= 0.0
    ensures a * w <= b * w
  {
    assert (b - a) * w >= 0.0;
  }

  /** Scaling by a positive factor keeps a strict order. */
  lemma ScaleLt(a: real, b: real, w: real)
    requires a < b && w > 0.0
    ensures a * w < b * w
  {
    assert (b - a) * w > 0.0;
  }

  /** A strict order between products with a common positive factor holds
      between the other factors. */
  lemma ScaleCancel(a: real, b: real, w: real)
    requires a * w < b * w && w > 0.0
    ensures a < b
  {
    if b <= a {
      ScaleLe(b, a, w);
    }
  }

  /** int() of y / w as a whole number of w's. */
  lemma TruncScaled(y: real, w: real)
    requires y >= 0.0 && w > 0.0
    ensures Trunc(y / w) as real * w <= y < (Trunc(y / w) + 1) as real * w
  {
    var x := y / w;
    assert x * w == y;
    assert x >= 0.0 by {
      if x < 0.0 {
        ScaleLt(x, 0.0, w);
      }
    }
    var f := Trunc(x);
    ScaleLe(f as real, x, w);
    assert x < (f + 1) as real;
    UpperScaled(x, (f + 1) as real, w, y);
  }

  lemma UpperScaled(x: real, g: real, w: real, y: real)
    requires x < g && w > 0.0 && x * w == y
    ensures y < g * w
  {
    ScaleLt(x, g, w);
  }

  /** A value that rounds (either way) into [lo, hi] when it lies in [lo, hi]. */
  lemma RoundStaysInRange(x: real, lo: int, hi: int)
    requires lo as real <= x <= hi as real
    ensures lo <= RoundHalfEven(x) <= hi
    ensures lo <= RoundHalfAway(x) <= hi
  {
  }

  /** Rounding an integer-valued real gives that integer back. */
  lemma RoundOfWhole(n: int)
    ensures RoundHalfEven(n as real) == n
    ensures RoundHalfAway(n as real) == n
  {
  }

  /** ASCII lower-casing, standing in for Python's str.lower(). */
  function LowerChar(c: char): (r: char)
    ensures 'A' <= c <= 'Z' ==> r as int == c as int + 32
    ensures !('A' <= c <= 'Z') ==> r == c
  {
    if 'A' <= c <= 'Z' then (c as int + 32) as char else c
  }

  function Lower(s: string): (r: string)
    ensures |r| == |s|
    ensures forall i :: 0 <= i < |s| ==> r[i] == LowerChar(s[i])
  {
    if s == [] then [] else [LowerChar(s[0])] + Lower(s[1..])
  }

  /** A string without capitals is its own lower case. */
  lemma LowerNoCapitals(s: string)
    requires forall i :: 0 <= i < |s| ==> !('A' <= s[i] <= 'Z')
    ensures Lower(s) == s
  {
  }

  /** Lower-casing twice is lower-casing once. */
  lemma {:induction false} LowerIdempotent(s: string)
    ensures Lower(Lower(s)) == Lower(s)
  {
    if s != [] {
      LowerIdempotent(s[1..]);
      assert Lower(s)[1..] == Lower(s[1..]);
    }
  }

  /** A configuration value as configobj hands it over: a single string,
      or a list when the option was written with commas. */
  datatype ConfigValue = Str(s: string) | List(items: seq<string>)
}
