/** The correlation grid of the visualization page: the attribute names are
    read back from the pair_wise table, the selected attribute's row gives
    the "correlated with" list, and one square cell per attribute is laid
    out eight to a row and coloured by a three-way rule. */
module Layout {
  import opened Wrappers
  import opened Correlation

  const BoxesPerRow: nat := 8
  const AttributePrefix: string := "att"
  const HoverPrefix: string := "Correlation: "

  function Min(a: nat, b: nat): nat {
    if a <= b then a else b
  }

  predicate StartsWith(s: string, prefix: string) {
    |prefix| <= |s| && s[..|prefix|] == prefix
  }

  /** The index labels of the table that start with "att", in table order:
      the feature rows, but not the two summary rows. */
  function AttributeNames(table: seq<LabeledRow>): (r: seq<string>)
    ensures |r| <= |table|
    ensures forall t | 0 <= t < |r| :: StartsWith(r[t], AttributePrefix)
  {
    if table == [] then []
    else
      var last := table[|table| - 1];
      AttributeNames(table[..|table| - 1]) + (if StartsWith(last.name, AttributePrefix) then [last.name] else [])
  }

  /** Python's `list.index`: the first position holding x. The select box
      only offers names from the list, so x is always found. */
  function IndexOf(names: seq<string>, x: string): (k: nat)
    requires x in names
    ensures k < |names| && names[k] == x
    ensures forall i | 0 <= i < k :: names[i] != x
  {
    if names[0] == x then 0 else 1 + IndexOf(names[1..], x)
  }

  /** The names zipped with the selected row whose value is defined, in
      order; `zip` stops at the shorter of the two. */
  function CorrelatedWith(names: seq<string>, row: seq<Option<real>>): (r: seq<string>)
    ensures |r| <= Min(|names|, |row|)
    decreases |names|
  {
    var m := Min(|names|, |row|);
    if m == 0 then []
    else
      CorrelatedWith(names[..m - 1], row[..m - 1])
        + (if row[m - 1].Some? then [names[m - 1]] else [])
  }

  /** The ascending positions of the defined cells of a row. */
  function DefinedPositions(row: seq<Option<real>>): (p: seq<nat>)
    ensures |p| == Count(row)
    ensures forall t | 0 <= t < |p| :: p[t] < |row| && row[p[t]].Some?
    ensures forall t, u | 0 <= t < u < |p| :: p[t] < p[u]
    ensures forall k | 0 <= k < |row| && row[k].Some? :: k in p
  {
    if row == [] then []
    else DefinedPositions(row[..|row| - 1]) + (if row[|row| - 1].Some? then [|row| - 1] else [])
  }

  datatype Color = Highlight | Neutral | Correlated {
    /** The colour the figure is drawn with. */
    function Hex(): string {
      match this
      case Highlight => "#FF0000"
      case Neutral => "#e6e5e3"
      case Correlated => "orange"
    }
  }

  /** The colour of cell i, by priority: the selected attribute, then an
      undefined value, then a correlated one. */
  function ColorOf(i: nat, selected: nat, v: Option<real>): (c: Color)
    ensures c == Highlight <==> i == selected
    ensures c == Neutral <==> i != selected && v.None?
    ensures c == Correlated <==> i != selected && v.Some?
  {
    if i == selected then Highlight
    else if v.None? then Neutral
    else Correlated
  }

  /** The hover text of a cell; `format` stands for the `.4f` formatting. */
  function HoverText(name: string, v: Option<real>, format: real -> string): (t: string)
    ensures v.Some? ==> t == HoverPrefix + format(v.value)
    ensures v.None? ==> t == name
  {
    match v
    case Some(x) => HoverPrefix + format(x)
    case None => name
  }

  /** One square of the grid: its position, colour, hover text and the
      attribute name written in it. */
  datatype Cell = Cell(x: int, y: int, color: Color, hover: string, text: string)

  /** The grid as the loop of the page builds it, one cell per attribute. */
  method BuildGrid(names: seq<string>, row: seq<Option<real>>, selected: nat, format: real -> string)
    returns (cells: seq<Cell>)
    ensures |cells| == Min(|names|, |row|)
    ensures forall k | 0 <= k < |cells| ::
      && 0 <= cells[k].x < BoxesPerRow && cells[k].y <= 0
      && k == BoxesPerRow * -cells[k].y + cells[k].x
    ensures forall k | 0 <= k < |cells| ::
      && cells[k].color == ColorOf(k, selected, row[k])
      && cells[k].hover == HoverText(names[k], row[k], format)
      && cells[k].text == names[k]
  {
    var m := Min(|names|, |row|);
    cells := [];
    var i := 0;
    while i < m
      invariant i <= m && |cells| == i
      invariant forall k | 0 <= k < i ::
        && 0 <= cells[k].x < BoxesPerRow && cells[k].y <= 0
        && k == BoxesPerRow * -cells[k].y + cells[k].x
      invariant forall k | 0 <= k < i ::
        && cells[k].color == ColorOf(k, selected, row[k])
        && cells[k].hover == HoverText(names[k], row[k], format)
        && cells[k].text == names[k]
    {
      var r := i / BoxesPerRow;
      var c := i % BoxesPerRow;
      var color := ColorOf(i, selected, row[i]);
      var text := HoverText(names[i], row[i], format);
      cells := cells + [Cell(c, -r, color, text, names[i])];
      i := i + 1;
    }
  }

  /** The names written in the orange cells, in grid order. */
  function CorrelatedLabels(cells: seq<Cell>): seq<string>
  {
    if cells == [] then []
    else
      var last := cells[|cells| - 1];
      CorrelatedLabels(cells[..|cells| - 1]) + (if last.color == Correlated then [last.text] else [])
  }

  /** Rows labelled with "att" names give back exactly those names. */
  lemma {:induction false} AttributeNamesOfFeatureRows(table: seq<LabeledRow>, names: seq<string>)
    requires |table| == |names|
    requires forall i | 0 <= i < |names| :: table[i].name == names[i]
    requires forall i | 0 <= i < |names| :: StartsWith(names[i], AttributePrefix)
    ensures AttributeNames(table) == names
  {
    if table != [] {
      var k := |table| - 1;
      AttributeNamesOfFeatureRows(table[..k], names[..k]);
    }
  }

  /** Neither summary row is labelled like an attribute. */
  lemma SummaryLabelsAreNotAttributes()
    ensures !StartsWith(CountLabel, AttributePrefix)
    ensures !StartsWith(SumLabel, AttributePrefix)
  {
    assert CountLabel[0] != AttributePrefix[0];
    assert SumLabel[0] != AttributePrefix[0];
  }

  /** A row whose label is not an attribute name adds no attribute name. */
  lemma {:induction false} AttributeNamesSkip(table: seq<LabeledRow>, row: LabeledRow)
    requires !StartsWith(row.name, AttributePrefix)
    ensures AttributeNames(table + [row]) == AttributeNames(table)
  {
    assert (table + [row])[..|table|] == table;
  }

  /** On a table of "att" feature rows followed by two rows labelled
      otherwise, the attribute names are the feature names. */
  lemma {:induction false} AttributeNamesOfPairWise(names: seq<string>, table: seq<LabeledRow>)
    requires |table| == |names| + 2
    requires forall i | 0 <= i < |names| :: table[i].name == names[i]
    requires forall i | 0 <= i < |names| :: StartsWith(names[i], AttributePrefix)
    requires !StartsWith(table[|names|].name, AttributePrefix)
    requires !StartsWith(table[|names| + 1].name, AttributePrefix)
    ensures AttributeNames(table) == names
  {
    var n := |names|;
    var features := table[..n];
    var front := features + [table[n]];
    assert front + [table[n + 1]] == table;
    AttributeNamesSkip(front, table[n + 1]);
    AttributeNamesSkip(features, table[n]);
    AttributeNamesOfFeatureRows(features, names);
  }

  /** Picking the names at positions below k from the first k names, and
      then the names at a tail of positions, picks the names at the
      positions followed by the tail from all the names. */
  lemma PickSnoc(names: seq<string>, k: nat, front: seq<nat>, tail: seq<nat>)
    requires k < |names|
    requires forall t | 0 <= t < |front| :: front[t] < k
    requires forall t | 0 <= t < |tail| :: tail[t] < |names|
    ensures seq(|front + tail|, t requires 0 <= t < |front + tail| => names[(front + tail)[t]])
      == seq(|front|, t requires 0 <= t < |front| => names[..k][front[t]])
         + seq(|tail|, t requires 0 <= t < |tail| => names[tail[t]])
  {
  }

  /** The "correlated with" list is the sub-sequence of the names at the
      defined positions of the row, in their order. */
  lemma {:induction false} CorrelatedWithSelects(names: seq<string>, row: seq<Option<real>>)
    requires |names| == |row|
    ensures var p := DefinedPositions(row);
            CorrelatedWith(names, row) == seq(|p|, t requires 0 <= t < |p| => names[p[t]])
  {
    if row != [] {
      var k := |row| - 1;
      CorrelatedWithSelects(names[..k], row[..k]);
      var tail: seq<nat> := if row[k].Some? then [k] else [];
      PickSnoc(names, k, DefinedPositions(row[..k]), tail);
    }
  }

  /** The number of names listed is the number of defined cells. */
  lemma CorrelatedWithLength(names: seq<string>, row: seq<Option<real>>)
    requires |names| == |row|
    ensures |CorrelatedWith(names, row)| == Count(row)
  {
    CorrelatedWithSelects(names, row);
  }

  /** When the selected attribute's own cell is undefined, the orange cells
      of the grid carry exactly the names of the "correlated with" list. */
  lemma {:induction false} CorrelatedLabelsMatch(names: seq<string>, row: seq<Option<real>>, selected: nat, cells: seq<Cell>)
    requires |names| == |row| == |cells|
    requires forall k | 0 <= k < |cells| :: cells[k].color == ColorOf(k, selected, row[k]) && cells[k].text == names[k]
    requires selected < |row| ==> row[selected].None?
    ensures CorrelatedLabels(cells) == CorrelatedWith(names, row)
  {
    if cells != [] {
      var k := |cells| - 1;
      CorrelatedLabelsMatch(names[..k], row[..k], selected, cells[..k]);
    }
  }

  /** In a symmetric matrix the selected attribute's filtered row is also
      its filtered column. */
  lemma RowIsColumn(pearson: seq<seq<real>>, i: nat)
    requires IsSymmetric(pearson) && i < |pearson|
    ensures Filter(pearson)[i] == Column(Filter(pearson), i)
  {
    var frame := Filter(pearson);
    forall j | 0 <= j < |pearson| ensures frame[i][j] == Column(frame, i)[j] {
      FilterSymmetric(pearson, i, j);
    }
  }

  /** The visualization page end to end: the pair_wise table, the attribute
      names, the selected attribute's position, its "correlated with" list
      and the grid of cells. */
  method ShowCorrelations(names: seq<string>, pearson: seq<seq<real>>, selection: string, format: real -> string)
    returns (attributeNames: seq<string>, index: nat, correlated: seq<string>, cells: seq<Cell>)
    requires IsSquare(pearson, |names|)
    requires forall i | 0 <= i < |names| :: StartsWith(names[i], AttributePrefix)
    requires selection in names
    ensures attributeNames == names
    ensures index < |names| && names[index] == selection
    ensures forall k | 0 <= k < index :: names[k] != selection
    ensures var p := DefinedPositions(Filter(pearson)[index]);
            correlated == seq(|p|, t requires 0 <= t < |p| => names[p[t]])
    ensures IsSymmetric(pearson) ==> |correlated| == Count(Column(Filter(pearson), index))
    ensures |cells| == |names|
    ensures forall k | 0 <= k < |cells| ::
      && 0 <= cells[k].x < BoxesPerRow && cells[k].y <= 0
      && k == BoxesPerRow * -cells[k].y + cells[k].x
    ensures forall k | 0 <= k < |cells| ::
      && cells[k].color == ColorOf(k, index, Filter(pearson)[index][k])
      && cells[k].hover == HoverText(names[k], Filter(pearson)[index][k], format)
      && cells[k].text == names[k]
    ensures pearson[index][index] == 1.0 ==> CorrelatedLabels(cells) == correlated
  {
    var table := PairWise(names, pearson);
    attributeNames := AttributeNames(table);
    SummaryLabelsAreNotAttributes();
    AttributeNamesOfPairWise(names, table);
    index := IndexOf(attributeNames, selection);
    // the selected attribute's row, without its label column
    var selectedRow := table[index].cells;
    correlated := CorrelatedWith(attributeNames, selectedRow);
    cells := BuildGrid(attributeNames, selectedRow, index, format);
    CorrelatedWithSelects(names, selectedRow);
    if IsSymmetric(pearson) {
      RowIsColumn(pearson, index);
      CorrelatedWithLength(names, selectedRow);
    }
    if pearson[index][index] == 1.0 {
      CorrelatedLabelsMatch(names, selectedRow, index, cells);
    }
  }
}
