/** The training data as the dashboard prepares it: the class label column
    is recoded from byte strings to integers, and the per-class mean of every
    feature column is taken over the rows of that class. */
module Dataset {
  import opened Wrappers

  /** A class label cell: a byte string as read from the ARFF file (bytes
      written as the characters they encode), or an integer code once
      recoded. */
  datatype Target = Nominal(bytes: string) | Code(n: int)

  /** One wafer record: its feature values in column order and its label. */
  datatype Row = Row(features: seq<real>, target: Target)

  const NormalCode: int := 1
  const AbnormalCode: int := 0

  predicate HasWidth(rows: seq<Row>, n: nat) {
    forall i | 0 <= i < |rows| :: |rows[i].features| == n
  }

  /** `replace({b'1': 1, b'-1': 0})` on one cell: the two known byte strings
      are recoded and every other value is left as it is. */
  function Relabel(t: Target): (r: Target)
    ensures t == Nominal("1") ==> r == Code(NormalCode)
    ensures t == Nominal("-1") ==> r == Code(AbnormalCode)
    ensures t != Nominal("1") && t != Nominal("-1") ==> r == t
  {
    match t
    case Nominal(b) =>
      if b == "1" then Code(NormalCode)
      else if b == "-1" then Code(AbnormalCode)
      else t
    case Code(_) => t
  }

  /** The replace applied to the whole label column. */
  function RelabelTargets(rows: seq<Row>): (r: seq<Row>)
    ensures |r| == |rows|
    ensures forall i | 0 <= i < |rows| :: r[i] == Row(rows[i].features, Relabel(rows[i].target))
  {
    seq(|rows|, i requires 0 <= i < |rows| => Row(rows[i].features, Relabel(rows[i].target)))
  }

  /** `df[df['target'] == c]`: the rows whose label is the code c, in order.
      A label left as a byte string equals no integer code. */
  function ClassRows(rows: seq<Row>, c: int): (r: seq<Row>)
    ensures |r| <= |rows|
    ensures forall k | 0 <= k < |r| :: r[k].target == Code(c) && r[k] in rows
  {
    if rows == [] then []
    else
      var last := rows[|rows| - 1];
      ClassRows(rows[..|rows| - 1], c) + (if last.target == Code(c) then [last] else [])
  }

  /** No row of the class is left out of the selection. */
  lemma {:induction false} ClassRowsComplete(rows: seq<Row>, c: int, i: nat)
    requires i < |rows| && rows[i].target == Code(c)
    ensures rows[i] in ClassRows(rows, c)
  {
    var k := |rows| - 1;
    if i < k {
      ClassRowsComplete(rows[..k], c, i);
    }
  }

  /** The selection keeps every row of the class as often as the data
      holds it, and no other row. */
  lemma {:induction false} ClassRowsMultiset(rows: seq<Row>, c: int, x: Row)
    ensures multiset(ClassRows(rows, c))[x] == (if x.target == Code(c) then multiset(rows)[x] else 0)
  {
    if rows != [] {
      var k := |rows| - 1;
      ClassRowsMultiset(rows[..k], c, x);
      assert rows == rows[..k] + [rows[k]];
    }
  }

  /** The sum of column j over some rows. */
  function ColumnTotal(rows: seq<Row>, j: nat): real
    requires forall i | 0 <= i < |rows| :: j < |rows[i].features|
  {
    if rows == [] then 0.0
    else ColumnTotal(rows[..|rows| - 1], j) + rows[|rows| - 1].features[j]
  }

  /** pandas `mean()` of column j: undefined over no rows. */
  function Mean(rows: seq<Row>, j: nat): (m: Option<real>)
    requires forall i | 0 <= i < |rows| :: j < |rows[i].features|
    ensures m.None? <==> rows == []
    ensures m.Some? ==> m.value * |rows| as real == ColumnTotal(rows, j)
  {
    if rows == [] then None else Some(ColumnTotal(rows, j) / |rows| as real)
  }

  /** The mean vector of class c over the n feature columns. */
  function ClassMeans(rows: seq<Row>, c: int, n: nat): (r: seq<Option<real>>)
    requires HasWidth(rows, n)
    ensures |r| == n
    ensures forall j | 0 <= j < n :: r[j] == Mean(ClassRows(rows, c), j)
  {
    var members := ClassRows(rows, c);
    assert HasWidth(members, n);
    seq(n, j requires 0 <= j < n => Mean(members, j))
  }

  /** Recoding is idempotent: a recoded column is left as it is. */
  lemma RelabelIdempotent(t: Target)
    ensures Relabel(Relabel(t)) == Relabel(t)
  {
  }

  /** A class without rows has an undefined mean in every column, and a
      class with rows a defined one in every column. */
  lemma ClassMeansUndefinedIffEmpty(rows: seq<Row>, c: int, n: nat)
    requires HasWidth(rows, n) && n > 0
    ensures (forall j | 0 <= j < n :: ClassMeans(rows, c, n)[j] == None) <==> ClassRows(rows, c) == []
    ensures (forall j | 0 <= j < n :: ClassMeans(rows, c, n)[j].Some?) <==> ClassRows(rows, c) != []
  {
    assert ClassMeans(rows, c, n)[0] == Mean(ClassRows(rows, c), 0);
  }

  lemma {:induction false} ColumnTotalBounds(rows: seq<Row>, j: nat, lo: real, hi: real)
    requires forall i | 0 <= i < |rows| :: j < |rows[i].features| && lo <= rows[i].features[j] <= hi
    ensures lo * |rows| as real <= ColumnTotal(rows, j) <= hi * |rows| as real
  {
    if rows != [] {
      ColumnTotalBounds(rows[..|rows| - 1], j, lo, hi);
    }
  }

  lemma QuotientBounds(total: real, k: real, lo: real, hi: real)
    requires k > 0.0 && lo * k <= total <= hi * k
    ensures lo <= total / k <= hi
  {
  }

  lemma {:induction false} ClassRowsWithinBounds(rows: seq<Row>, c: int, n: nat, j: nat, lo: real, hi: real)
    requires HasWidth(rows, n) && j < n
    requires forall i | 0 <= i < |rows| && rows[i].target == Code(c) :: lo <= rows[i].features[j] <= hi
    ensures forall i | 0 <= i < |ClassRows(rows, c)| ::
      j < |ClassRows(rows, c)[i].features| && lo <= ClassRows(rows, c)[i].features[j] <= hi
  {
    if rows != [] {
      ClassRowsWithinBounds(rows[..|rows| - 1], c, n, j, lo, hi);
    }
  }

  /** The mean of some rows lies between any bounds of their values. */
  lemma MeanOfRowsWithinBounds(members: seq<Row>, j: nat, lo: real, hi: real)
    requires forall i | 0 <= i < |members| :: j < |members[i].features| && lo <= members[i].features[j] <= hi
    ensures Mean(members, j).Some? ==> lo <= Mean(members, j).value <= hi
  {
    if members != [] {
      ColumnTotalBounds(members, j, lo, hi);
      QuotientBounds(ColumnTotal(members, j), |members| as real, lo, hi);
    }
  }

  /** The mean of a class lies between the least and the greatest value
      its rows take in that column. */
  lemma {:induction false} MeanWithinBounds(rows: seq<Row>, c: int, n: nat, j: nat, lo: real, hi: real)
    requires HasWidth(rows, n) && j < n
    requires forall i | 0 <= i < |rows| && rows[i].target == Code(c) :: lo <= rows[i].features[j] <= hi
    ensures ClassMeans(rows, c, n)[j].Some? ==> lo <= ClassMeans(rows, c, n)[j].value <= hi
  {
    ClassRowsWithinBounds(rows, c, n, j, lo, hi);
    MeanOfRowsWithinBounds(ClassRows(rows, c), j, lo, hi);
  }

  /** When every label is one of the two known byte strings, recoding splits
      the rows between the two classes: each row is in exactly one. */
  lemma {:induction false} ClassesPartitionRows(rows: seq<Row>)
    requires forall i | 0 <= i < |rows| :: rows[i].target == Nominal("1") || rows[i].target == Nominal("-1")
    ensures |ClassRows(RelabelTargets(rows), NormalCode)| + |ClassRows(RelabelTargets(rows), AbnormalCode)| == |rows|
  {
    if rows != [] {
      var k := |rows| - 1;
      ClassesPartitionRows(rows[..k]);
      assert RelabelTargets(rows)[..k] == RelabelTargets(rows[..k]);
    }
  }

  /** The mean of two rows is the midpoint of their values. */
  lemma MeanOfTwo(x: Row, y: Row, j: nat)
    requires j < |x.features| && j < |y.features|
    ensures Mean([x, y], j) == Some((x.features[j] + y.features[j]) / 2.0)
  {
    assert [x, y][..1] == [x];
    assert [x][..0] == [];
    assert ColumnTotal([x], j) == x.features[j];
    assert ColumnTotal([x, y], j) == x.features[j] + y.features[j];
  }

  /** Two features, four rows labelled 1, 0, 1, 0 with values [1, 2],
      [3, 4], [5, 6], [7, 8]: the normal rows are rows one and three, the
      abnormal rows are rows two and four. */
  lemma AlternatingLabelsClasses(a: Row, b: Row, c: Row, d: Row)
    requires a.target == c.target == Code(NormalCode)
    requires b.target == d.target == Code(AbnormalCode)
    ensures ClassRows([a, b, c, d], NormalCode) == [a, c]
    ensures ClassRows([a, b, c, d], AbnormalCode) == [b, d]
  {
    assert [a, b, c, d][..3] == [a, b, c];
    assert [a, b, c][..2] == [a, b];
    assert [a, b][..1] == [a];
    assert [a][..0] == [];
    assert ClassRows([a], NormalCode) == [a] && ClassRows([a], AbnormalCode) == [];
    assert ClassRows([a, b], NormalCode) == [a] && ClassRows([a, b], AbnormalCode) == [b];
    assert ClassRows([a, b, c], NormalCode) == [a, c] && ClassRows([a, b, c], AbnormalCode) == [b];
  }

  /** On that data the class means are the midpoints [3, 4] and [5, 6]. */
  lemma AlternatingLabelsExample()
    ensures var rows := [Row([1.0, 2.0], Code(1)), Row([3.0, 4.0], Code(0)),
                         Row([5.0, 6.0], Code(1)), Row([7.0, 8.0], Code(0))];
            && ClassMeans(rows, NormalCode, 2) == [Some(3.0), Some(4.0)]
            && ClassMeans(rows, AbnormalCode, 2) == [Some(5.0), Some(6.0)]
  {
    var a, b := Row([1.0, 2.0], Code(1)), Row([3.0, 4.0], Code(0));
    var c, d := Row([5.0, 6.0], Code(1)), Row([7.0, 8.0], Code(0));
    AlternatingLabelsClasses(a, b, c, d);
    MeanOfTwo(a, c, 0);
    MeanOfTwo(a, c, 1);
    MeanOfTwo(b, d, 0);
    MeanOfTwo(b, d, 1);
    var normal, abnormal := ClassMeans([a, b, c, d], 1, 2), ClassMeans([a, b, c, d], 0, 2);
    assert normal[0] == Some(3.0) && normal[1] == Some(4.0);
    assert abnormal[0] == Some(5.0) && abnormal[1] == Some(6.0);
    assert normal == [Some(3.0), Some(4.0)] && abnormal == [Some(5.0), Some(6.0)];
  }
}
