/** Counting tables: the nested count lists the wind-rose and scatter plots
    fill one sample at a time, described by what they end up holding. */
module Counting {

  /** Sum of a sequence, taken from the end so that it follows a loop that
      appends. */
  function Sum(s: seq<int>): int
  {
    if s == [] then 0 else Sum(s[..|s| - 1]) + s[|s| - 1]
  }

  lemma SumAppend(s: seq<int>, x: int)
    ensures Sum(s + [x]) == Sum(s) + x
  {
    assert (s + [x])[..|s|] == s;
  }

  /** Adding d to one entry adds d to the sum. */
  lemma {:induction false} SumUpdate(s: seq<int>, k: nat, d: int)
    requires k < |s|
    ensures Sum(s[k := s[k] + d]) == Sum(s) + d
  {
    var n := |s| - 1;
    var u := s[k := s[k] + d];
    assert u[..n] == if k < n then s[..n][k := s[k] + d] else s[..n];
    if k < n {
      SumUpdate(s[..n], k, d);
    }
  }

  /** The sum of two sequences added entry by entry. */
  lemma {:induction false} SumPointwise(a: seq<int>, b: seq<int>)
    requires |a| == |b|
    ensures Sum(seq(|a|, i requires 0 <= i < |a| => a[i] + b[i])) == Sum(a) + Sum(b)
  {
    var s := seq(|a|, i requires 0 <= i < |a| => a[i] + b[i]);
    if |a| > 0 {
      var n := |a| - 1;
      SumPointwise(a[..n], b[..n]);
      assert s[..n] == seq(n, i requires 0 <= i < n => a[..n][i] + b[..n][i]);
    }
  }

  /** Entries of a sequence that are all zero add up to zero. */
  lemma {:induction false} SumOfZeros(s: seq<int>)
    requires forall i :: 0 <= i < |s| ==> s[i] == 0
    ensures Sum(s) == 0
  {
    if s != [] {
      SumOfZeros(s[..|s| - 1]);
    }
  }

  /** A sequence that is zero except at position k sums to its entry at k. */
  lemma {:induction false} SumOfSingle(s: seq<int>, k: nat)
    requires k < |s|
    requires forall i :: 0 <= i < |s| && i != k ==> s[i] == 0
    ensures Sum(s) == s[k]
  {
    var z := s[k := 0];
    SumOfZeros(z);
    SumUpdate(z, k, s[k]);
    assert z[k := z[k] + s[k]] == s;
  }

  /** How many times x occurs in s. */
  function Count<T(==)>(s: seq<T>, x: T): nat
  {
    if s == [] then 0
    else Count(s[..|s| - 1], x) + (if s[|s| - 1] == x then 1 else 0)
  }

  /** An element that never occurs is counted zero times. */
  lemma {:induction false} CountAbsent<T>(s: seq<T>, x: T)
    requires forall i :: 0 <= i < |s| ==> s[i] != x
    ensures Count(s, x) == 0
  {
    if s != [] {
      CountAbsent(s[..|s| - 1], x);
    }
  }

  function Zeros(n: nat): (z: seq<nat>)
    ensures |z| == n
    ensures forall i :: 0 <= i < n ==> z[i] == 0
  {
    seq(n, i => 0)
  }

  /** A one-dimensional count list over the keys 0..n-1, incremented once
      per key in order. */
  function Histogram(keys: seq<nat>, n: nat): (h: seq<nat>)
    requires forall i :: 0 <= i < |keys| ==> keys[i] < n
    ensures |h| == n
  {
    if keys == [] then Zeros(n)
    else
      var h := Histogram(keys[..|keys| - 1], n);
      var k := keys[|keys| - 1];
      h[k := h[k] + 1]
  }

  /** Each entry of the count list is the number of samples with that key. */
  lemma {:induction false} HistogramCounts(keys: seq<nat>, n: nat, k: nat)
    requires forall i :: 0 <= i < |keys| ==> keys[i] < n
    requires k < n
    ensures Histogram(keys, n)[k] == Count(keys, k)
  {
    if keys != [] {
      HistogramCounts(keys[..|keys| - 1], n, k);
    }
  }

  /** Every key is counted exactly once: the entries add up to the number of keys. */
  lemma {:induction false} HistogramSum(keys: seq<nat>, n: nat)
    requires forall i :: 0 <= i < |keys| ==> keys[i] < n
    ensures Sum(Histogram(keys, n)) == |keys|
  {
    if keys == [] {
      SumOfZeros(Zeros(n));
    } else {
      var m := |keys| - 1;
      HistogramSum(keys[..m], n);
      var h := Histogram(keys[..m], n);
      SumUpdate(h, keys[m], 1);
    }
  }

  /** A cell of a two-dimensional count table. */
  datatype Cell = Cell(row: nat, col: nat)

  type Table = seq<seq<nat>>

  ghost predicate IsTable(t: Table, rows: nat, cols: nat)
  {
    |t| == rows && forall r :: 0 <= r < rows ==> |t[r]| == cols
  }

  predicate CellsWithin(cells: seq<Cell>, rows: nat, cols: nat)
  {
    forall i :: 0 <= i < |cells| ==> cells[i].row < rows && cells[i].col < cols
  }

  function ZeroTable(rows: nat, cols: nat): (t: Table)
    ensures IsTable(t, rows, cols)
    ensures forall r, c :: 0 <= r < rows && 0 <= c < cols ==> t[r][c] == 0
  {
    seq(rows, r => Zeros(cols))
  }

  /** The table with one more observation in cell (r, c). */
  function Bump(t: Table, cell: Cell): Table
    requires cell.row < |t| && cell.col < |t[cell.row]|
  {
    t[cell.row := t[cell.row][cell.col := t[cell.row][cell.col] + 1]]
  }

  /** The table after counting each cell of the sequence once, in order. */
  function Tally(cells: seq<Cell>, rows: nat, cols: nat): (t: Table)
    requires CellsWithin(cells, rows, cols)
    ensures IsTable(t, rows, cols)
  {
    if cells == [] then ZeroTable(rows, cols)
    else Bump(Tally(cells[..|cells| - 1], rows, cols), cells[|cells| - 1])
  }

  /** Sum of all entries of a table. */
  function TableSum(t: Table): int
  {
    if t == [] then 0 else TableSum(t[..|t| - 1]) + Sum(t[|t| - 1])
  }

  /** The entries of a prefix of rows and of the remaining rows add up to
      the whole table. */
  lemma {:induction false} TableSumSplit(t: Table, k: nat)
    requires k <= |t|
    ensures TableSum(t) == TableSum(t[..k]) + TableSum(t[k..])
  {
    if k < |t| {
      var n := |t| - 1;
      TableSumSplit(t[..n], k);
      assert t[..n][..k] == t[..k];
      assert t[k..][..|t[k..]| - 1] == t[..n][k..];
    } else {
      assert t[..k] == t;
    }
  }

  lemma {:induction false} TableSumUpdate(t: Table, r: nat, row: seq<nat>)
    requires r < |t|
    ensures TableSum(t[r := row]) == TableSum(t) - Sum(t[r]) + Sum(row)
  {
    var n := |t| - 1;
    var u := t[r := row];
    if r < n {
      assert u[..n] == t[..n][r := row];
      TableSumUpdate(t[..n], r, row);
    } else {
      assert u[..n] == t[..n];
    }
  }

  /** Each entry of the tallied table is the number of samples in that cell. */
  lemma {:induction false} TallyCounts(cells: seq<Cell>, rows: nat, cols: nat, r: nat, c: nat)
    requires CellsWithin(cells, rows, cols)
    requires r < rows && c < cols
    ensures Tally(cells, rows, cols)[r][c] == Count(cells, Cell(r, c))
  {
    if cells != [] {
      TallyCounts(cells[..|cells| - 1], rows, cols, r, c);
    }
  }

  /** Every sample lands in exactly one cell: the table adds up to the number
      of cells tallied. */
  lemma {:induction false} TallySum(cells: seq<Cell>, rows: nat, cols: nat)
    requires CellsWithin(cells, rows, cols)
    ensures TableSum(Tally(cells, rows, cols)) == |cells|
  {
    if cells == [] {
      ZeroTableSum(rows, cols);
    } else {
      var m := |cells| - 1;
      var t := Tally(cells[..m], rows, cols);
      var cell := cells[m];
      TallySum(cells[..m], rows, cols);
      SumUpdate(t[cell.row], cell.col, 1);
      TableSumUpdate(t, cell.row, t[cell.row][cell.col := t[cell.row][cell.col] + 1]);
    }
  }

  lemma {:induction false} ZeroTableSum(rows: nat, cols: nat)
    ensures TableSum(ZeroTable(rows, cols)) == 0
  {
    if rows > 0 {
      ZeroTableSum(rows - 1, cols);
      assert ZeroTable(rows, cols)[..rows - 1] == ZeroTable(rows - 1, cols);
      SumOfZeros(Zeros(cols));
    }
  }

  /** Sum of column c over all rows. */
  function ColSum(t: Table, c: nat): int
    requires forall r :: 0 <= r < |t| ==> c < |t[r]|
  {
    if t == [] then 0 else ColSum(t[..|t| - 1], c) + t[|t| - 1][c]
  }

  /** The column totals of a table. */
  function ColumnTotals(t: Table, cols: nat): (s: seq<int>)
    requires forall r :: 0 <= r < |t| ==> |t[r]| == cols
    ensures |s| == cols
  {
    seq(cols, c requires 0 <= c < cols => ColSum(t, c))
  }

  /** Adding up the column totals gives the same as adding up the rows. */
  lemma {:induction false} ColumnTotalsSum(t: Table, cols: nat)
    requires forall r :: 0 <= r < |t| ==> |t[r]| == cols
    ensures Sum(ColumnTotals(t, cols)) == TableSum(t)
  {
    if t == [] {
      SumOfZeros(ColumnTotals(t, cols));
    } else {
      var n := |t| - 1;
      var last := t[n];
      ColumnTotalsSum(t[..n], cols);
      var prev := ColumnTotals(t[..n], cols);
      SumPointwise(prev, last);
      assert ColumnTotals(t, cols) == seq(|prev|, i requires 0 <= i < |prev| => prev[i] + last[i]);
    }
  }

  /** A sum of non-negative entries is non-negative. */
  lemma {:induction false} SumNonneg(s: seq<int>)
    requires forall i :: 0 <= i < |s| ==> s[i] >= 0
    ensures Sum(s) >= 0
  {
    if s != [] {
      SumNonneg(s[..|s| - 1]);
    }
  }

  /** With non-negative entries a longer prefix never sums to less. */
  lemma {:induction false} SumPrefixMonotone(s: seq<int>, i: nat, j: nat)
    requires i <= j <= |s|
    requires forall k :: 0 <= k < |s| ==> s[k] >= 0
    ensures Sum(s[..i]) <= Sum(s[..j])
  {
    if i < j {
      SumPrefixMonotone(s, i, j - 1);
      assert s[..j][..j - 1] == s[..j - 1];
    }
  }

  /** The sum of one row is at most the sum of the whole table. */
  lemma {:induction false} RowAtMostTable(t: Table, r: nat)
    requires r < |t|
    ensures Sum(t[r]) <= TableSum(t)
  {
    var n := |t| - 1;
    SumNonneg(t[n]);
    if r < n {
      RowAtMostTable(t[..n], r);
    } else {
      TableNonneg(t[..n]);
    }
  }

  lemma {:induction false} TableNonneg(t: Table)
    ensures TableSum(t) >= 0
  {
    if t != [] {
      TableNonneg(t[..|t| - 1]);
      SumNonneg(t[|t| - 1]);
    }
  }
}
