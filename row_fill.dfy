/** The fill of a period sheet's in-memory table (lines 141-158 of DosageExcel.cs): row `i` of the
    table is built from worksheet row `i`, for `i` from 2 to the last used row, by assigning
    `Cells[i, j + 1].Value?.ToString()` to field `j` for every used column `j`. */
module RowFill {
  import opened Wrappers
  import opened Errors
  import opened Workbook
  import opened Tables

  /** `n` fields holding `DBNull`, the contents of a fresh `NewRow()`. A definition: its ensures
      only spell out the body. */
  function Nulls(n: nat): (fs: seq<Field>)
    ensures |fs| == n && forall k :: 0 <= k < n ==> fs[k] == DbNull
  {
    seq(n, _ => DbNull)
  }

  /** What the assignment to field `j` of row `i` stores, or the `ArgumentException` the setter
      raises for a value its column cannot hold. */
  function FieldAt(sheet: Sheet, cols: seq<Column>, parse: string -> Option<real>, i: int, j: nat)
    : Result<Field, Error>
    requires j < |cols|
  {
    StoreCell(cols[j], ValueText(CellAt(sheet, i, j + 1)), parse)
  }

  /** Fields `j..` of row `i`: those of the used columns assigned, the rest left `DBNull`;
      a used column the table does not have fails on `row[j]`. */
  function FieldsFrom(sheet: Sheet, cols: seq<Column>, parse: string -> Option<real>, i: int, j: nat)
    : Result<seq<Field>, Error>
    requires j <= |cols|
    decreases |cols| - j
  {
    if j >= sheet.lastColumn then Success(Nulls(|cols| - j))
    else if j == |cols| then Failure(NoSuchColumn(j))
    else
      var f :- FieldAt(sheet, cols, parse, i, j);
      var rest :- FieldsFrom(sheet, cols, parse, i, j + 1);
      Success([f] + rest)
  }

  /** Row `i` of the table. */
  function FilledRow(sheet: Sheet, cols: seq<Column>, parse: string -> Option<real>, i: int)
    : Result<Row, Error>
  {
    FieldsFrom(sheet, cols, parse, i, 0)
  }

  /** The rows added to the table, and the error that stopped the fill, if any. */
  datatype Fill = Fill(rows: seq<Row>, failure: Option<Error>)

  /** `done` rows already added, then those of `f`. */
  function After(done: seq<Row>, f: Fill): Fill {
    Fill(done + f.rows, f.failure)
  }

  /** The fill from worksheet row `i` on. */
  function RowsFrom(sheet: Sheet, cols: seq<Column>, parse: string -> Option<real>, i: int): Fill
    decreases sheet.lastRow + 1 - i
  {
    if i > sheet.lastRow then Fill([], None)
    else match FilledRow(sheet, cols, parse, i)
      case Failure(e) => Fill([], Some(e))
      case Success(row) => After([row], RowsFrom(sheet, cols, parse, i + 1))
  }

  /** The whole fill: worksheet rows 2 to `Dimension.End.Row`, which raises for a null
      `Dimension`. */
  function FillSheet(sheet: Sheet, cols: seq<Column>, parse: string -> Option<real>): Fill {
    if NoDimension(sheet) then Fill([], Some(NullDimension)) else RowsFrom(sheet, cols, parse, 2)
  }

  // ---------------------------------------------------------------------------

  /** Lines 141-157: the outer loop, one `NewRow`/`Rows.Add` per worksheet row. */
  method FillRows(dt: DataTable, sheet: Sheet, parse: string -> Option<real>) returns (err: Option<Error>)
    modifies dt
    ensures dt.columns == old(dt.columns)
    ensures dt.rows == old(dt.rows) + FillSheet(sheet, old(dt.columns), parse).rows
    ensures err == FillSheet(sheet, old(dt.columns), parse).failure
  {
    ghost var cols := dt.columns;
    ghost var done: seq<Row> := [];
    if NoDimension(sheet) {
      assert dt.rows == old(dt.rows) + [];
      return Some(NullDimension);
    }
    var i := 2;
    while i <= sheet.lastRow
      invariant dt.columns == cols && dt.rows == old(dt.rows) + done
      invariant FillSheet(sheet, cols, parse) == After(done, RowsFrom(sheet, cols, parse, i))
      decreases sheet.lastRow + 1 - i
    {
      var row := FillRow(dt, sheet, parse, i);
      if row.Failure? {
        assert done + [] == done;
        return Some(row.error);
      }
      assert RowsFrom(sheet, cols, parse, i) == After([row.value], RowsFrom(sheet, cols, parse, i + 1));
      dt.AddRow(row.value);
      done := done + [row.value];
      i := i + 1;
    }
    assert done + [] == done;
    err := None;
  }

  /** Lines 143-155: the inner loop over the used columns of row `i`. */
  method FillRow(dt: DataTable, sheet: Sheet, parse: string -> Option<real>, i: int)
    returns (r: Result<Row, Error>)
    ensures r == FilledRow(sheet, dt.columns, parse, i)
  {
    var row := dt.NewRow();
    var j := 0;
    PrependNothing(FieldsFrom(sheet, dt.columns, parse, i, 0));
    while j < sheet.lastColumn
      invariant j <= |row| == |dt.columns|
      invariant forall k :: j <= k < |row| ==> row[k] == DbNull
      invariant FilledRow(sheet, dt.columns, parse, i) == Prepend(row[..j], FieldsFrom(sheet, dt.columns, parse, i, j))
    {
      if j >= |row| {
        return Failure(NoSuchColumn(j));
      }
      var f := StoreCell(dt.columns[j], ValueText(CellAt(sheet, i, j + 1)), parse);
      if f.Failure? {
        return Failure(f.error);
      }
      ghost var rest := FieldsFrom(sheet, dt.columns, parse, i, j + 1);
      assert FieldsFrom(sheet, dt.columns, parse, i, j) == Prepend([f.value], rest);
      PrependTwice(row[..j], [f.value], rest);
      row := row[j := f.value];
      assert row[..j + 1] == row[..j] + [f.value];
      j := j + 1;
    }
    assert row == row[..j] + Nulls(|row| - j);
    r := Success(row);
  }

  // ---------------------------------------------------------------------------
  // Properties of a row.

  /** Row `i` is built exactly when the table has a column for every used worksheet column and
      every used cell can be stored in its column. */
  lemma {:induction false} FieldsFromSucceeds(sheet: Sheet, cols: seq<Column>, parse: string -> Option<real>, i: int, j: nat)
    requires j <= |cols|
    ensures FieldsFrom(sheet, cols, parse, i, j).Success? <==>
      (sheet.lastColumn <= |cols| || sheet.lastColumn <= j) &&
      forall k :: j <= k < |cols| && k < sheet.lastColumn ==> FieldAt(sheet, cols, parse, i, k).Success?
    decreases |cols| - j
  {
    if j < sheet.lastColumn && j < |cols| {
      FieldsFromSucceeds(sheet, cols, parse, i, j + 1);
    }
  }

  /** Field `k` of a built row: the stored cell value for a used column, `DBNull` beyond. */
  lemma {:induction false} FieldsFromEntry(sheet: Sheet, cols: seq<Column>, parse: string -> Option<real>, i: int, j: nat, k: nat)
    requires j <= k < |cols| && FieldsFrom(sheet, cols, parse, i, j).Success?
    ensures |FieldsFrom(sheet, cols, parse, i, j).value| == |cols| - j
    ensures k < sheet.lastColumn ==> FieldAt(sheet, cols, parse, i, k).Success?
    ensures FieldsFrom(sheet, cols, parse, i, j).value[k - j] ==
      if k < sheet.lastColumn then FieldAt(sheet, cols, parse, i, k).value else DbNull
    decreases |cols| - j
  {
    if j < sheet.lastColumn {
      var rest := FieldsFrom(sheet, cols, parse, i, j + 1);
      if k > j {
        FieldsFromEntry(sheet, cols, parse, i, j + 1, k);
      } else if j + 1 < |cols| {
        FieldsFromEntry(sheet, cols, parse, i, j + 1, j + 1);
      }
    }
  }

  /** An error raised while building a row is the `row[j]` of a used worksheet column the table
      has no field for, or the setter's exception for a cell of the row that a decimal column
      refuses: an empty one (null) or a text that does not parse. */
  lemma {:induction false} FieldsFromFailure(sheet: Sheet, cols: seq<Column>, parse: string -> Option<real>, i: int, j: nat)
    requires j <= |cols| && FieldsFrom(sheet, cols, parse, i, j).Failure?
    ensures RowFailureCause(sheet, cols, parse, i, FieldsFrom(sheet, cols, parse, i, j).error)
    decreases |cols| - j
  {
    if j < sheet.lastColumn && j < |cols| {
      if FieldAt(sheet, cols, parse, i, j).Success? {
        FieldsFromFailure(sheet, cols, parse, i, j + 1);
      } else {
        assert CellRejected(sheet, cols, parse, i, j + 1, FieldsFrom(sheet, cols, parse, i, j).error);
      }
    }
  }

  /** Used column `c` of row `i` has a decimal column that refuses the cell, and `e` is the
      setter's exception for it: for an empty cell the null refused, naming the column; for a
      text that does not parse, that value and the column's name. */
  predicate CellRejected(sheet: Sheet, cols: seq<Column>, parse: string -> Option<real>, i: int, c: int, e: Error) {
    1 <= c <= sheet.lastColumn && c <= |cols| && cols[c - 1].kind == Decimal
    && match CellAt(sheet, i, c)
       case Blank => e == NullNotStored(cols[c - 1].name)
       case Filled(t) => parse(t).None? && e == CellNotStored(t, cols[c - 1].name)
  }

  /** What can raise while row `i` is built: a used worksheet column past the table's last field
      (`row[j]`), or a cell of the row that its decimal column refuses. */
  predicate RowFailureCause(sheet: Sheet, cols: seq<Column>, parse: string -> Option<real>, i: int, e: Error) {
    match e
    case NoSuchColumn(j) => j == |cols| < sheet.lastColumn
    case CellNotStored(_, _) => exists c | 1 <= c <= sheet.lastColumn :: CellRejected(sheet, cols, parse, i, c, e)
    case NullNotStored(_) => exists c | 1 <= c <= sheet.lastColumn :: CellRejected(sheet, cols, parse, i, c, e)
    case _ => false
  }

  /** A sheet with one text column and one derived decimal column whose data row fills only the
      first cell: the empty second cell is null, which the decimal column refuses, so the fill
      adds no row and stops with that exception. */
  lemma EmptyDecimalCell(parse: string -> Option<real>)
    ensures var sheet := Sheet("P", 2, 2, map[(1, 1) := "Name", (1, 2) := "12/31/2023", (2, 1) := "a"]);
      var cols := [Column("Name", Text), Column("VAL_31_2023", Decimal)];
      FillSheet(sheet, cols, parse) == Fill([], Some(NullNotStored("VAL_31_2023")))
  {
    var sheet := Sheet("P", 2, 2, map[(1, 1) := "Name", (1, 2) := "12/31/2023", (2, 1) := "a"]);
    assert CellAt(sheet, 2, 1) == Filled("a");
    assert CellAt(sheet, 2, 2) == Blank;
  }

  // ---------------------------------------------------------------------------
  // Properties of the fill.

  /** A fill without error adds one row per worksheet row from `i` to the last one. */
  lemma {:induction false} RowsFromCount(sheet: Sheet, cols: seq<Column>, parse: string -> Option<real>, i: int)
    requires RowsFrom(sheet, cols, parse, i).failure.None?
    ensures |RowsFrom(sheet, cols, parse, i).rows| == if i > sheet.lastRow then 0 else sheet.lastRow + 1 - i
    decreases sheet.lastRow + 1 - i
  {
    if i <= sheet.lastRow {
      RowsFromCount(sheet, cols, parse, i + 1);
    }
  }

  /** The `k`-th added row is worksheet row `i + k`, in order. */
  lemma {:induction false} RowsFromEntry(sheet: Sheet, cols: seq<Column>, parse: string -> Option<real>, i: int, k: nat)
    requires k < |RowsFrom(sheet, cols, parse, i).rows|
    ensures FilledRow(sheet, cols, parse, i + k).Success?
    ensures RowsFrom(sheet, cols, parse, i).rows[k] == FilledRow(sheet, cols, parse, i + k).value
    decreases k
  {
    if k > 0 {
      RowsFromEntry(sheet, cols, parse, i + 1, k - 1);
    }
  }

  /** A fill that fails stops at the first worksheet row that cannot be built: every row before
      it was added, and its error is the fill's. */
  lemma {:induction false} RowsFromFailure(sheet: Sheet, cols: seq<Column>, parse: string -> Option<real>, i: int)
    requires RowsFrom(sheet, cols, parse, i).failure.Some?
    ensures i + |RowsFrom(sheet, cols, parse, i).rows| <= sheet.lastRow
    ensures FilledRow(sheet, cols, parse, i + |RowsFrom(sheet, cols, parse, i).rows|)
      == Failure(RowsFrom(sheet, cols, parse, i).failure.value)
    decreases sheet.lastRow + 1 - i
  {
    if FilledRow(sheet, cols, parse, i).Success? {
      RowsFromFailure(sheet, cols, parse, i + 1);
    }
  }

  /** The whole fill, from worksheet row 2: `max(0, lastRow - 1)` rows when nothing fails ... */
  lemma FillSheetCount(sheet: Sheet, cols: seq<Column>, parse: string -> Option<real>)
    requires FillSheet(sheet, cols, parse).failure.None?
    ensures |FillSheet(sheet, cols, parse).rows| == if sheet.lastRow < 2 then 0 else sheet.lastRow - 1
  {
    RowsFromCount(sheet, cols, parse, 2);
  }

  /** ... and, when something does, the null `Dimension` of a sheet without cells, before any
      row, or an error caused by one of the rows from 2 to the last. */
  lemma FillSheetFailure(sheet: Sheet, cols: seq<Column>, parse: string -> Option<real>)
    requires FillSheet(sheet, cols, parse).failure.Some?
    ensures NoDimension(sheet) <==> FillSheet(sheet, cols, parse) == Fill([], Some(NullDimension))
    ensures !NoDimension(sheet) ==> exists i ::
      2 <= i <= sheet.lastRow && RowFailureCause(sheet, cols, parse, i, FillSheet(sheet, cols, parse).failure.value)
  {
    if !NoDimension(sheet) {
      var f := FillSheet(sheet, cols, parse);
      RowsFromFailure(sheet, cols, parse, 2);
      FieldsFromFailure(sheet, cols, parse, 2 + |f.rows|, 0);
      assert RowFailureCause(sheet, cols, parse, 2 + |f.rows|, f.failure.value);
    }
  }
}
