/** The correlation engine of the dashboard (`pair_wise`): the absolute
    Pearson matrix of the feature columns is band-filtered, and two summary
    rows, "No. of pairs" and "Sum of pairs", are appended to it one after
    the other. The Pearson coefficients themselves are an input. */
module Correlation {
  import opened Wrappers

  /** Exclusive bounds of the band a coefficient must lie in to be kept. */
  const Lower: real := 0.7
  const Upper: real := 1.0

  /** Index labels of the two appended summary rows. */
  const CountLabel: string := "No. of pairs"
  const SumLabel: string := "Sum of pairs"

  /** One row of the result table: its index label and one cell per feature
      column; `None` is an undefined (NaN) cell. */
  datatype LabeledRow = LabeledRow(name: string, cells: seq<Option<real>>)

  /** A frame: rows of cells, all of the same width. */
  type Frame = seq<seq<Option<real>>>

  predicate IsSquare(m: seq<seq<real>>, n: nat) {
    |m| == n && forall i | 0 <= i < n :: |m[i]| == n
  }

  predicate IsSymmetric(m: seq<seq<real>>) {
    IsSquare(m, |m|) && forall i, j | 0 <= i < |m| && 0 <= j < |m| :: m[i][j] == m[j][i]
  }

  predicate HasWidth(f: Frame, n: nat) {
    forall i | 0 <= i < |f| :: |f[i]| == n
  }

  /** `.abs()` on one coefficient. */
  function Abs(x: real): (r: real)
    ensures 0.0 <= r && (r == x || r == -x)
  {
    if x < 0.0 then -x else x
  }

  /** The band filter on one absolute coefficient: kept iff strictly inside
      (Lower, Upper), otherwise undefined. */
  function Band(v: real): (r: Option<real>)
    ensures r.Some? <==> Lower < v < Upper
    ensures r.Some? ==> r.value == v
  {
    if Lower < v && v < Upper then Some(v) else None
  }

  function FilterRow(r: seq<real>): (f: seq<Option<real>>)
    ensures |f| == |r|
    ensures forall j | 0 <= j < |r| :: f[j] == Band(Abs(r[j]))
  {
    seq(|r|, j requires 0 <= j < |r| => Band(Abs(r[j])))
  }

  /** `corr[(corr > 0.7) & (corr < 1)]` applied to `corr = pearson.abs()`. */
  function Filter(m: seq<seq<real>>): (f: Frame)
    ensures |f| == |m|
    ensures forall i | 0 <= i < |m| :: f[i] == FilterRow(m[i])
  {
    seq(|m|, i requires 0 <= i < |m| => FilterRow(m[i]))
  }

  function Column(f: Frame, j: nat): (c: seq<Option<real>>)
    requires forall i | 0 <= i < |f| :: j < |f[i]|
    ensures |c| == |f|
    ensures forall i | 0 <= i < |f| :: c[i] == f[i][j]
  {
    seq(|f|, i requires 0 <= i < |f| => f[i][j])
  }

  /** The cells of a table, without the labels. */
  function Cells(table: seq<LabeledRow>): (f: Frame)
    ensures |f| == |table|
    ensures forall i | 0 <= i < |table| :: f[i] == table[i].cells
  {
    seq(|table|, i requires 0 <= i < |table| => table[i].cells)
  }

  /** pandas `count()` of one column: the number of defined cells. */
  function Count(col: seq<Option<real>>): (c: nat)
    ensures c <= |col|
  {
    if col == [] then 0
    else Count(col[..|col| - 1]) + (if col[|col| - 1].Some? then 1 else 0)
  }

  /** pandas `sum()` of one column: undefined cells are skipped, and a column
      without any defined cell sums to zero. */
  function SumDefined(col: seq<Option<real>>): (s: real)
    ensures Count(col) == 0 ==> s == 0.0
  {
    if col == [] then 0.0
    else SumDefined(col[..|col| - 1]) + col[|col| - 1].GetOr(0.0)
  }

  /** The count row of a table whose rows have width n. */
  function CountRow(f: Frame, n: nat): (r: seq<Option<real>>)
    requires HasWidth(f, n)
    ensures |r| == n
    ensures forall j | 0 <= j < n :: r[j] == Some(Count(Column(f, j)) as real)
  {
    seq(n, j requires 0 <= j < n => Some(Count(Column(f, j)) as real))
  }

  /** The sum row of a table whose rows have width n. */
  function SumRow(f: Frame, n: nat): (r: seq<Option<real>>)
    requires HasWidth(f, n)
    ensures |r| == n
    ensures forall j | 0 <= j < n :: r[j] == Some(SumDefined(Column(f, j)))
  {
    seq(n, j requires 0 <= j < n => Some(SumDefined(Column(f, j))))
  }

  /** The indices of the defined cells of a column. */
  function DefinedIndices(col: seq<Option<real>>): set<nat>
  {
    set k: nat | k < |col| && col[k].Some?
  }

  /** Adding one more cell at the bottom of a column adds its value to the
      column's sum. */
  lemma SumDefinedSnoc(col: seq<Option<real>>, x: Option<real>)
    ensures SumDefined(col + [x]) == SumDefined(col) + x.GetOr(0.0)
  {
    assert (col + [x])[..|col|] == col;
  }

  /** Appending a labelled row to a table appends its cells to the table's
      cells. */
  lemma CellsSnoc(table: seq<LabeledRow>, row: LabeledRow)
    ensures Cells(table + [row]) == Cells(table) + [row.cells]
  {
    assert |Cells(table + [row])| == |Cells(table) + [row.cells]|;
  }

  /** Appending one row to a frame appends one cell to each of its columns. */
  lemma ColumnSnoc(f: Frame, row: seq<Option<real>>, n: nat, j: nat)
    requires HasWidth(f, n) && |row| == n && j < n
    ensures HasWidth(f + [row], n)
    ensures Column(f + [row], j) == Column(f, j) + [row[j]]
  {
  }

  /** The sum row taken after the count row is appended holds, per column,
      the sum of the defined cells plus their count. */
  lemma SumAfterCountRow(frame: Frame, n: nat)
    requires HasWidth(frame, n)
    ensures HasWidth(frame + [CountRow(frame, n)], n)
    ensures forall j | 0 <= j < n ::
      SumRow(frame + [CountRow(frame, n)], n)[j]
        == Some(SumDefined(Column(frame, j)) + Count(Column(frame, j)) as real)
  {
    var counts := CountRow(frame, n);
    forall j | 0 <= j < n
      ensures SumDefined(Column(frame + [counts], j))
        == SumDefined(Column(frame, j)) + Count(Column(frame, j)) as real
    {
      ColumnSnoc(frame, counts, n, j);
      SumDefinedSnoc(Column(frame, j), counts[j]);
    }
  }

  /** The methods of the module, written as pandas runs them: the filtered
      frame gets its count row, and then the sum row is taken over the frame
      as it now stands, count row included. */
  method PairWise(names: seq<string>, pearson: seq<seq<real>>) returns (table: seq<LabeledRow>)
    requires IsSquare(pearson, |names|)
    ensures |table| == |names| + 2
    ensures forall i | 0 <= i < |names| :: table[i] == LabeledRow(names[i], Filter(pearson)[i])
    ensures table[|names|].name == CountLabel && table[|names| + 1].name == SumLabel
    ensures |table[|names|].cells| == |names| && |table[|names| + 1].cells| == |names|
    ensures forall j | 0 <= j < |names| ::
      table[|names|].cells[j] == Some(Count(Column(Filter(pearson), j)) as real)
    ensures forall j | 0 <= j < |names| ::
      table[|names| + 1].cells[j]
        == Some(SumDefined(Column(Filter(pearson), j)) + Count(Column(Filter(pearson), j)) as real)
  {
    var n := |names|;
    var frame := Filter(pearson);
    table := seq(n, i requires 0 <= i < n => LabeledRow(names[i], frame[i]));
    assert Cells(table) == frame;
    // append the count row
    var counts := CountRow(Cells(table), n);
    CellsSnoc(table, LabeledRow(CountLabel, counts));
    table := table + [LabeledRow(CountLabel, counts)];
    // append the sum row, taken over every row so far, count row included
    var sums := SumRow(Cells(table), n);
    SumAfterCountRow(frame, n);
    table := table + [LabeledRow(SumLabel, sums)];
  }

  /** The same pipeline with the sum row taken over the filtered cells only,
      before the count row is appended: "Sum of pairs" is then the sum of
      the kept coefficients, as its label says. */
  method PairWiseCorrected(names: seq<string>, pearson: seq<seq<real>>) returns (table: seq<LabeledRow>)
    requires IsSquare(pearson, |names|)
    ensures |table| == |names| + 2
    ensures forall i | 0 <= i < |names| :: table[i] == LabeledRow(names[i], Filter(pearson)[i])
    ensures table[|names|].name == CountLabel && table[|names| + 1].name == SumLabel
    ensures |table[|names|].cells| == |names| && |table[|names| + 1].cells| == |names|
    ensures forall j | 0 <= j < |names| ::
      table[|names|].cells[j] == Some(Count(Column(Filter(pearson), j)) as real)
    ensures forall j | 0 <= j < |names| ::
      table[|names| + 1].cells[j] == Some(SumDefined(Column(Filter(pearson), j)))
  {
    var n := |names|;
    var frame := Filter(pearson);
    table := seq(n, i requires 0 <= i < n => LabeledRow(names[i], frame[i]));
    assert Cells(table) == frame;
    var counts := CountRow(Cells(table), n);
    var sums := SumRow(Cells(table), n);
    table := table + [LabeledRow(CountLabel, counts)] + [LabeledRow(SumLabel, sums)];
  }

  /** A cell survives the filter iff its absolute coefficient lies strictly
      between 0.7 and 1, and then it keeps that absolute value. */
  lemma FilterCell(m: seq<seq<real>>, i: nat, j: nat)
    requires IsSquare(m, |m|) && i < |m| && j < |m|
    ensures Filter(m)[i][j].Some? <==> Lower < Abs(m[i][j]) < Upper
    ensures Filter(m)[i][j].Some? ==> Filter(m)[i][j].value == Abs(m[i][j])
  {
  }

  /** A coefficient of absolute value exactly 1, in particular every
      self-correlation, is undefined after the filter. */
  lemma PerfectCorrelationUndefined(m: seq<seq<real>>, i: nat, j: nat)
    requires IsSquare(m, |m|) && i < |m| && j < |m|
    requires m[i][j] == 1.0 || m[i][j] == -1.0
    ensures Filter(m)[i][j] == None
  {
  }

  /** The filter keeps a symmetric matrix symmetric. */
  lemma FilterSymmetric(m: seq<seq<real>>, i: nat, j: nat)
    requires IsSymmetric(m) && i < |m| && j < |m|
    ensures Filter(m)[i][j] == Filter(m)[j][i]
  {
  }

  /** "No. of pairs" counts exactly the defined cells of a column. */
  lemma {:induction false} CountIsDefinedIndices(col: seq<Option<real>>)
    ensures Count(col) == |DefinedIndices(col)|
  {
    if col != [] {
      var k := |col| - 1;
      var prefix := col[..k];
      CountIsDefinedIndices(prefix);
      if col[k].Some? {
        assert DefinedIndices(col) == DefinedIndices(prefix) + {k};
      } else {
        assert DefinedIndices(col) == DefinedIndices(prefix);
      }
    }
  }

  /** A column with an undefined cell counts fewer pairs than it has rows. */
  lemma {:induction false} CountBelowLength(col: seq<Option<real>>, k: nat)
    requires k < |col| && col[k] == None
    ensures Count(col) < |col|
  {
    var last := |col| - 1;
    if k < last {
      CountBelowLength(col[..last], k);
    }
  }

  /** With a unit diagonal, a feature is never counted as paired with
      itself: "No. of pairs" of column j is at most n - 1. */
  lemma NoOfPairsExcludesSelf(m: seq<seq<real>>, j: nat)
    requires IsSquare(m, |m|) && j < |m|
    requires m[j][j] == 1.0
    ensures Count(Column(Filter(m), j)) < |m|
  {
    CountBelowLength(Column(Filter(m), j), j);
  }

  /** Every kept cell lies in the band, so the sum of a column of c kept
      cells lies strictly between 0.7 * c and c (and is 0 when c = 0). */
  lemma {:induction false} SumDefinedBounds(col: seq<Option<real>>)
    requires forall k | 0 <= k < |col| && col[k].Some? :: Lower < col[k].value < Upper
    ensures Count(col) == 0 ==> SumDefined(col) == 0.0
    ensures Count(col) > 0 ==>
      Lower * Count(col) as real < SumDefined(col) < Upper * Count(col) as real
  {
    if col != [] {
      SumDefinedBounds(col[..|col| - 1]);
    }
  }

  /** The value pair_wise puts in "Sum of pairs" for a column with c pairs:
      0 when c = 0, and strictly between 1.7 * c and 2 * c otherwise. */
  lemma SumOfPairsBounds(m: seq<seq<real>>, j: nat)
    requires IsSquare(m, |m|) && j < |m|
    ensures var c := Count(Column(Filter(m), j)) as real;
            var s := SumDefined(Column(Filter(m), j)) + c;
            (c == 0.0 ==> s == 0.0) && (c > 0.0 ==> (Lower + 1.0) * c < s < (Upper + 1.0) * c)
  {
    SumDefinedBounds(Column(Filter(m), j));
  }

  /** The two-feature matrix with coefficient 0.8: its first column holds one
      pair of value 0.8, yet pair_wise reports 1.8 as its "Sum of pairs". */
  lemma SumOfPairsCountsTheCount()
    ensures var col := Column(Filter([[1.0, 0.8], [0.8, 1.0]]), 0);
            Count(col) == 1 && SumDefined(col) == 0.8
            && SumDefined(col) + Count(col) as real == 1.8
  {
    var col := Column(Filter([[1.0, 0.8], [0.8, 1.0]]), 0);
    assert col == [None, Some(0.8)];
    assert col[..1] == [None];
    assert col[..1][..0] == [];
  }

  /** The same two-feature matrix run through the pipeline as written: the
      returned table reports one pair and a "Sum of pairs" of 1.8 for the
      first column. */
  method SumOfPairsExample() returns (table: seq<LabeledRow>)
    ensures |table| == 4 && |table[2].cells| == 2 && |table[3].cells| == 2
    ensures table[2].cells[0] == Some(1.0) && table[3].cells[0] == Some(1.8)
  {
    table := PairWise(["att1", "att2"], [[1.0, 0.8], [0.8, 1.0]]);
    SumOfPairsCountsTheCount();
  }
}
