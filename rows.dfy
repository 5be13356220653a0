/** The data side of `flatten_df`: the select keeps every row, in order, and
    computes each output column's value from the same row. A flat column's
    value is carried over; a derived column `n_sub` holds `col(n + "." + sub)`,
    the sub-field of the parent's value, or null when the parent is null. */
module Rows {
  import opened Seqs
  import opened Schema
  import opened Flattening

  /** A value in a dataframe cell. A struct value holds its fields by
      position, as a Spark Row does. */
  datatype Value =
    | Null
    | Atom(text: string)
    | Record(items: seq<Value>)
    | List(elems: seq<Value>)

  /** `v` is a value of kind `k`; null belongs to every kind. */
  predicate HasKind(v: Value, k: Kind)
    decreases v
  {
    match v
    case Null => true
    case Atom(_) => k.Scalar?
    case Record(items) =>
      k.Struct? && |items| == |k.fields|
      && forall i :: 0 <= i < |items| ==> HasKind(items[i], k.fields[i].kind)
    case List(elems) =>
      k.Array? && forall i :: 0 <= i < |elems| ==> HasKind(elems[i], k.elem)
  }

  /** The `i`-th field of a struct value; null for a null struct. */
  function FieldOf(v: Value, i: nat): Value
  {
    match v
    case Record(items) => if i < |items| then items[i] else Null
    case _ => Null
  }

  /** The value of `col(n + "." + sub)` where column `n` has kind `k` and
      holds `v`, and `sub` is its `i`-th sub-field. For an array of structs
      the field is read from every element. */
  function Project(k: Kind, v: Value, i: nat): (r: Value)
    ensures v == Null ==> r == Null
    ensures k.Struct? ==> r == FieldOf(v, i)
  {
    if k.Array? then
      match v
      case List(elems) => List(seq(|elems|, j requires 0 <= j < |elems| => FieldOf(elems[j], i)))
      case _ => Null
    else
      FieldOf(v, i)
  }

  /** A projected value has the kind the schema gives the derived column. */
  lemma ProjectHasKind(k: Kind, v: Value, i: nat)
    requires HasKind(v, k)
    requires StarFields(k).Some? && i < |StarFields(k).value|
    ensures HasKind(Project(k, v, i), DerivedKind(k, StarFields(k).value[i]))
  {
    var fs := StarFields(k).value;
    if k.Array? {
      match v
      case List(elems) =>
        var r := Project(k, v, i);
        forall j | 0 <= j < |elems| ensures HasKind(r.elems[j], fs[i].kind) {
          assert HasKind(elems[j], k.elem);
        }
      case _ =>
    }
  }

  /** One column of one row: the column and the value the row holds in it. */
  datatype Cell = Cell(col: Field, val: Value)

  function ColumnOf(c: Cell): Field
  {
    c.col
  }

  function ValueOf(c: Cell): Value
  {
    c.val
  }

  /** The columns a row of cells belongs to. */
  function RowSchema(row: seq<Cell>): seq<Field>
  {
    Map(row, ColumnOf)
  }

  function Values(row: seq<Cell>): seq<Value>
  {
    Map(row, ValueOf)
  }

  /** Pairs each column with the row's value for it; unzipping gives both back. */
  function Cells(cols: seq<Field>, vals: seq<Value>): (row: seq<Cell>)
    requires |cols| == |vals|
    ensures RowSchema(row) == cols && Values(row) == vals
  {
    var row := seq(|cols|, i requires 0 <= i < |cols| => Cell(cols[i], vals[i]));
    assert RowSchema(row) == cols;
    assert Values(row) == vals;
    row
  }

  lemma CellsOfParts(row: seq<Cell>)
    ensures Cells(RowSchema(row), Values(row)) == row
  {
  }

  predicate IsFlatCell(c: Cell)
  {
    IsFlatColumn(c.col)
  }

  predicate IsNestedCell(c: Cell)
  {
    IsNestedColumn(c.col)
  }

  /** The derived cells of one nested cell, in sub-field order. */
  function CellRun(c: Cell): seq<Cell>
    requires Expandable(c.col)
  {
    var fs := StarFields(c.col.kind).value;
    seq(|fs|, i requires 0 <= i < |fs| => Cell(Derive(c.col, fs[i]), Project(c.col.kind, c.val, i)))
  }

  function CellRuns(cells: seq<Cell>): seq<seq<Cell>>
    requires forall c :: c in cells ==> Expandable(c.col)
  {
    seq(|cells|, k requires 0 <= k < |cells| => CellRun(cells[k]))
  }

  lemma NestedCellsExpandable(row: seq<Cell>)
    requires Flattenable(RowSchema(row))
    ensures forall c :: c in Filter(row, IsNestedCell) ==> Expandable(c.col)
  {
    FilterMembers(row, IsNestedCell);
    forall c | c in Filter(row, IsNestedCell) ensures Expandable(c.col) {
      var i :| 0 <= i < |row| && row[i] == c;
      assert RowSchema(row)[i] == c.col;
    }
  }

  /** Laying out the derived cells and reading off their columns gives the
      derived columns of the schema. */
  lemma {:induction false} CellRunsSchema(cells: seq<Cell>)
    requires forall c :: c in cells ==> Expandable(c.col)
    ensures forall c :: c in RowSchema(cells) ==> Expandable(c)
    ensures RowSchema(Concat(CellRuns(cells))) == Concat(Runs(RowSchema(cells)))
  {
    forall c | c in RowSchema(cells) ensures Expandable(c) {
      var i :| 0 <= i < |cells| && RowSchema(cells)[i] == c;
      assert cells[i] in cells;
    }
    var runs := CellRuns(cells);
    MapConcat(runs, ColumnOf);
    var mapped := seq(|runs|, k requires 0 <= k < |runs| => Map(runs[k], ColumnOf));
    forall k | 0 <= k < |runs| ensures mapped[k] == Runs(RowSchema(cells))[k] {
      assert cells[k] in cells;
      assert Map(CellRun(cells[k]), ColumnOf) == Run(cells[k].col);
    }
    assert mapped == Runs(RowSchema(cells));
  }

  /** Splitting a row into flat and nested cells splits its schema into
      `flat_cols` and `nested_cols`. */
  lemma SplitSchema(row: seq<Cell>)
    ensures RowSchema(Filter(row, IsFlatCell)) == FlatColumns(RowSchema(row))
    ensures RowSchema(Filter(row, IsNestedCell)) == NestedColumns(RowSchema(row))
  {
    FilterMap(row, ColumnOf, IsFlatColumn, IsFlatCell);
    FilterMap(row, ColumnOf, IsNestedColumn, IsNestedCell);
  }

  /** The flattened row: the flat cells as they are, then the derived cells of
      each nested cell. Its columns are exactly the flattened schema. */
  function FlattenRow(row: seq<Cell>): (r: seq<Cell>)
    requires Flattenable(RowSchema(row))
    ensures RowSchema(r) == Flatten(RowSchema(row)).value
  {
    var nested := Filter(row, IsNestedCell);
    NestedCellsExpandable(row);
    SplitSchema(row);
    CellRunsSchema(nested);
    MapAppend(Filter(row, IsFlatCell), Concat(CellRuns(nested)), ColumnOf);
    Filter(row, IsFlatCell) + Concat(CellRuns(nested))
  }

  /** What the flattened row is, spelled out. */
  lemma FlattenRowParts(row: seq<Cell>)
    requires Flattenable(RowSchema(row))
    ensures forall c :: c in Filter(row, IsNestedCell) ==> Expandable(c.col)
    ensures FlattenRow(row) == Filter(row, IsFlatCell) + Concat(CellRuns(Filter(row, IsNestedCell)))
  {
    NestedCellsExpandable(row);
  }

  /** The flat cells come first, each exactly as in the input row and in
      input order; every cell of the row is either one of them or a nested
      cell, and not both. */
  lemma FlatCellsUnchanged(row: seq<Cell>)
    requires Flattenable(RowSchema(row))
    ensures var flat := Filter(row, IsFlatCell);
            && |flat| == |FlatColumns(RowSchema(row))|
            && FlattenRow(row)[..|flat|] == flat
            && IsMerge(row, flat, Filter(row, IsNestedCell))
  {
    SplitSchema(row);
    forall c: Cell ensures IsNestedCell(c) == !IsFlatCell(c) {
      DtypeTestsComplementary(Dtype(c.col.kind));
    }
    FilterPartition(row, IsFlatCell, IsNestedCell);
  }

  lemma CellRunsLength(cells: seq<Cell>)
    requires forall c :: c in cells ==> Expandable(c.col)
    ensures |Concat(CellRuns(cells))| == SubFieldTotal(RowSchema(cells))
  {
    CellRunsSchema(cells);
    RunsLength(RowSchema(cells));
  }

  lemma CellRunsPrefix(cells: seq<Cell>, k: nat)
    requires forall c :: c in cells ==> Expandable(c.col)
    requires k <= |cells|
    ensures forall c :: c in cells[..k] ==> Expandable(c.col)
    ensures CellRuns(cells)[..k] == CellRuns(cells[..k])
    ensures |Concat(CellRuns(cells)[..k])| == SubFieldTotal(RowSchema(cells[..k]))
  {
    forall c | c in cells[..k] ensures Expandable(c.col) { assert c in cells; }
    CellRunsLength(cells[..k]);
  }

  /** The `i`-th derived cell of the `k`-th nested cell sits after the flat
      cells and the derived cells of the nested cells before it (the position
      `RunLayout` gives, since the flat and nested cells carry `flat_cols` and
      `nested_cols`, see `SplitSchema`), is named `parent_sub`, and holds the
      parent value's sub-field, or null when the parent value is null. */
  lemma DerivedCellValue(row: seq<Cell>, k: nat, i: nat)
    requires Flattenable(RowSchema(row))
    requires k < |Filter(row, IsNestedCell)|
    requires i < SubFieldCount(Filter(row, IsNestedCell)[k].col)
    ensures var nested := Filter(row, IsNestedCell);
            var parent := nested[k];
            var start := |Filter(row, IsFlatCell)| + SubFieldTotal(RowSchema(nested[..k]));
            && Expandable(parent.col)
            && start + i < |FlattenRow(row)|
            && FlattenRow(row)[start + i]
               == Cell(Derive(parent.col, StarFields(parent.col.kind).value[i]), Project(parent.col.kind, parent.val, i))
  {
    var nested, flat := Filter(row, IsNestedCell), Filter(row, IsFlatCell);
    var parent := nested[k];
    FlattenRowParts(row);
    assert parent in nested;
    var runs := CellRuns(nested);
    CellRunsPrefix(nested, k);
    ConcatIndex(runs, k, i);
    var out := FlattenRow(row);
    assert out[|flat| + |Concat(runs[..k])| + i] == Concat(runs)[|Concat(runs[..k])| + i];
  }

  /** Every cell is typed by its column. */
  predicate WellTyped(row: seq<Cell>)
  {
    forall c :: c in row ==> HasKind(c.val, c.col.kind)
  }

  /** The derived cells of a well-typed cell are well typed. */
  lemma CellRunWellTyped(c: Cell)
    requires Expandable(c.col) && HasKind(c.val, c.col.kind)
    ensures WellTyped(CellRun(c))
  {
    var fs := StarFields(c.col.kind).value;
    forall d | d in CellRun(c) ensures HasKind(d.val, d.col.kind) {
      var i :| 0 <= i < |fs| && d == CellRun(c)[i];
      ProjectHasKind(c.col.kind, c.val, i);
    }
  }

  /** Flattening a well-typed row gives a well-typed row: each derived value
      has the kind the flattened schema declares for its column. */
  lemma FlattenRowWellTyped(row: seq<Cell>)
    requires Flattenable(RowSchema(row))
    requires WellTyped(row)
    ensures WellTyped(FlattenRow(row))
  {
    var nested, flat := Filter(row, IsNestedCell), Filter(row, IsFlatCell);
    FlattenRowParts(row);
    FilterMembers(row, IsNestedCell);
    FilterMembers(row, IsFlatCell);
    var runs := CellRuns(nested);
    forall c | c in FlattenRow(row) ensures HasKind(c.val, c.col.kind) {
      if c !in flat {
        assert c in Concat(runs);
        ConcatMember(runs, c);
        var k :| 0 <= k < |runs| && c in runs[k];
        assert nested[k] in nested;
        CellRunWellTyped(nested[k]);
      }
    }
  }

  /** A dataframe: its columns and its rows, one value per column. */
  datatype Frame = Frame(columns: seq<Field>, rows: seq<seq<Value>>)

  predicate WellFormed(df: Frame)
  {
    forall r :: 0 <= r < |df.rows| ==> |df.rows[r]| == |df.columns|
  }

  /** `flatten_df` on a dataframe: the flattened schema, and every row, in
      order, flattened against the input schema. */
  function FlattenFrame(df: Frame): (r: Result<Frame>)
    requires WellFormed(df)
    ensures r.Ok? <==> Flattenable(df.columns)
    ensures r.Err? ==> r.error == Flatten(df.columns).error
    ensures r.Ok? ==> && r.value.columns == Flatten(df.columns).value
                      && |r.value.rows| == |df.rows|
                      && WellFormed(r.value)
  {
    match Flatten(df.columns)
    case Err(e) => Err(e)
    case Ok(out) =>
      Ok(Frame(out, seq(|df.rows|, r requires 0 <= r < |df.rows| => Values(FlattenRow(Cells(df.columns, df.rows[r]))))))
  }

  /** Row `r` of the flattened frame, paired with the flattened columns, is
      row `r` of the input, paired with the input columns, flattened. */
  lemma FrameRowIsFlattenedRow(df: Frame, r: nat)
    requires WellFormed(df)
    requires FlattenFrame(df).Ok?
    requires r < |df.rows|
    ensures var out := FlattenFrame(df).value;
            Cells(out.columns, out.rows[r]) == FlattenRow(Cells(df.columns, df.rows[r]))
  {
    var out := FlattenFrame(df).value;
    var row := FlattenRow(Cells(df.columns, df.rows[r]));
    assert out.rows[r] == Values(row);
    CellsOfParts(row);
  }

  /** Every value is typed by its column. */
  predicate FrameTyped(df: Frame)
    requires WellFormed(df)
  {
    forall r, i :: 0 <= r < |df.rows| && 0 <= i < |df.columns| ==> HasKind(df.rows[r][i], df.columns[i].kind)
  }

  /** Flattening a well-typed dataframe gives a well-typed dataframe. */
  lemma FlattenFramePreservesTyping(df: Frame)
    requires WellFormed(df) && FrameTyped(df)
    requires FlattenFrame(df).Ok?
    ensures WellFormed(FlattenFrame(df).value) && FrameTyped(FlattenFrame(df).value)
  {
    var out := FlattenFrame(df).value;
    forall r, i | 0 <= r < |out.rows| && 0 <= i < |out.columns|
      ensures HasKind(out.rows[r][i], out.columns[i].kind)
    {
      var row := Cells(df.columns, df.rows[r]);
      forall c | c in row ensures HasKind(c.val, c.col.kind) {
        var j :| 0 <= j < |row| && row[j] == c;
      }
      FlattenRowWellTyped(row);
      FrameRowIsFlattenedRow(df, r);
      assert Cells(out.columns, out.rows[r])[i] in FlattenRow(row);
    }
  }
}
