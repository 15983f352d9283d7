/** `ImportDailyDosageToDB` (lines 182-238 of DosageExcel.cs): the daily-dosage sheet replaces the
    contents of the store's `DailyDosage` table. */
module DailyDosage {
  import opened Wrappers
  import opened Errors
  import opened Workbook
  import opened Tables
  import opened Config
  import opened Store

  /** The store table the sheet replaces. */
  const DailyTable: string := "DailyDosage"

  /** The type of a column: the `CLRType` of an object-valued property, text otherwise. */
  function DailyKind(c: DailyColumn): Kind {
    if c.declared.Some? then c.declared.value else Text
  }

  /** One column per `DailyDosageColumns` property, in order. A definition: its ensures only
      spell out the body; `AddDailyColumns` and `DailyDataShape` state the schema's use. */
  function DailySchema(cols: seq<DailyColumn>): (schema: seq<Column>)
    ensures |schema| == |cols|
    ensures forall k :: 0 <= k < |cols| ==> schema[k] == Column(cols[k].name, DailyKind(cols[k]))
  {
    seq(|cols|, k requires 0 <= k < |cols| => Column(cols[k].name, DailyKind(cols[k])))
  }

  /** Field `j` of row `i`: a non-empty cell assigned as text, coerced by its column; an empty
      cell leaves the field at `DBNull`. A value the column cannot hold raises. */
  function DailyField(sheet: Sheet, schema: seq<Column>, parse: string -> Option<real>, i: int, j: nat)
    : Result<Field, Error>
    requires j < |schema|
  {
    match CellAt(sheet, i, j + 1)
    case Blank => Success(DbNull)
    case Filled(t) =>
      match StoreCell(schema[j], Some(t), parse)
      case Failure(_) => Failure(SupportError)
      case Success(f) => Success(f)
  }

  /** Fields `j..` of row `i`, one per column. */
  function DailyFieldsFrom(sheet: Sheet, schema: seq<Column>, parse: string -> Option<real>, i: int, j: nat)
    : Result<seq<Field>, Error>
    requires j <= |schema|
    decreases |schema| - j
  {
    if j == |schema| then Success([])
    else
      var f :- DailyField(sheet, schema, parse, i, j);
      var rest :- DailyFieldsFrom(sheet, schema, parse, i, j + 1);
      Success([f] + rest)
  }

  /** Worksheet rows `i` to `Dimension.End.Row`. */
  function DailyRowsFrom(sheet: Sheet, schema: seq<Column>, parse: string -> Option<real>, i: int)
    : Result<seq<Row>, Error>
    decreases sheet.lastRow + 1 - i
  {
    if i > sheet.lastRow then Success([])
    else
      var row :- DailyFieldsFrom(sheet, schema, parse, i, 0);
      var rest :- DailyRowsFrom(sheet, schema, parse, i + 1);
      Success([row] + rest)
  }

  /** The table the sheet is loaded into; every failure is the generic support error. */
  function DailyData(cols: seq<DailyColumn>, sheet: Sheet, parse: string -> Option<real>): Result<Table, Error> {
    match AddColumns([], DailySchema(cols))
    case Failure(_) => Failure(SupportError)
    case Success(schema) =>
      if NoDimension(sheet) then Failure(SupportError)
      else match DailyRowsFrom(sheet, schema, parse, 2)
      case Failure(_) => Failure(SupportError)
      case Success(rows) => Success(Table(schema, rows))
  }

  /** What the import leaves in the store: `DailyDosage` emptied, then the new rows bulk-inserted;
      a refused call is reported as the support error too. */
  function DailyOutcome(cols: seq<DailyColumn>, sheet: Sheet, parse: string -> Option<real>, rejects: Action -> bool)
    : Outcome
  {
    match DailyData(cols, sheet, parse)
    case Failure(e) => Raise(e)
    case Success(t) => Then(Call(Truncate(DailyTable), SupportError, rejects), Call(BulkInsert(DailyTable, t), SupportError, rejects))
  }

  // ---------------------------------------------------------------------------

  /** Lines 182-238. */
  method ImportDailyDosageToDB(db: Database, cols: seq<DailyColumn>, sheet: Sheet, parse: string -> Option<real>)
    returns (r: Result<(), Error>)
    modifies db
    ensures db.log == old(db.log) + DailyOutcome(cols, sheet, parse, db.rejects).log
    ensures Reports(r, DailyOutcome(cols, sheet, parse, db.rejects))
  {
    var t := BuildDailyTable(cols, sheet, parse);
    if t.Failure? {
      assert db.log + [] == db.log;
      return Failure(SupportError);
    }
    var data := t.value.Snapshot();
    var ok := db.Apply(Truncate(DailyTable));
    if !ok {
      assert old(db.log) + [] == db.log;
      return Failure(SupportError);
    }
    ok := db.Apply(BulkInsert(DailyTable, data));
    if !ok {
      return Failure(SupportError);
    }
    r := Success(());
  }

  /** Lines 186-227: the table with the declared schema, filled from row 2 on. */
  method BuildDailyTable(cols: seq<DailyColumn>, sheet: Sheet, parse: string -> Option<real>)
    returns (r: Result<DataTable, Error>)
    ensures r.Success? <==> DailyData(cols, sheet, parse).Success?
    ensures r.Failure? ==> r.error == SupportError
    ensures r.Success? ==> fresh(r.value) && r.value.Snapshot() == DailyData(cols, sheet, parse).value
  {
    var dt := new DataTable();
    var added := AddDailyColumns(dt, cols);
    if added.Failure? {
      return Failure(SupportError);
    }
    if NoDimension(sheet) {
      // `dataSheet.Dimension.End.Row` of the loop's condition.
      return Failure(SupportError);
    }
    var i := 2;
    ghost var done: seq<Row> := [];
    PrependNothing(DailyRowsFrom(sheet, dt.columns, parse, 2));
    while i <= sheet.lastRow
      invariant fresh(dt) && Some(dt.columns) == DailyColumnsOf(cols) && dt.rows == done
      invariant DailyRowsFrom(sheet, dt.columns, parse, 2) == Prepend(done, DailyRowsFrom(sheet, dt.columns, parse, i))
      decreases sheet.lastRow + 1 - i
    {
      var row := DailyRow(dt, sheet, parse, i);
      if row.Failure? {
        return Failure(SupportError);
      }
      PrependTwice(done, [row.value], DailyRowsFrom(sheet, dt.columns, parse, i + 1));
      dt.AddRow(row.value);
      done := done + [row.value];
      i := i + 1;
    }
    assert done + [] == done;
    r := Success(dt);
  }

  /** The schema added to the table, if every name is new. */
  function DailyColumnsOf(cols: seq<DailyColumn>): Option<seq<Column>> {
    match AddColumns([], DailySchema(cols))
    case Failure(_) => None
    case Success(schema) => Some(schema)
  }

  /** Lines 187-201: one `Columns.Add` per property. */
  method AddDailyColumns(dt: DataTable, cols: seq<DailyColumn>) returns (r: Result<(), Error>)
    requires dt.columns == [] && dt.rows == []
    modifies dt
    ensures dt.rows == []
    ensures r.Success? <==> DailyColumnsOf(cols).Some?
    ensures r.Success? ==> Some(dt.columns) == DailyColumnsOf(cols)
  {
    ghost var goal := AddColumns([], DailySchema(cols));
    var k := 0;
    while k < |cols|
      invariant 0 <= k <= |cols| && dt.rows == []
      invariant goal == AddColumns(dt.columns, DailySchema(cols)[k..])
    {
      var c := Column(cols[k].name, DailyKind(cols[k]));
      ghost var pending := DailySchema(cols)[k..];
      assert pending[0] == c && pending[1..] == DailySchema(cols)[k + 1..];
      var added := dt.AddColumn(c);
      if added.Failure? {
        return Failure(added.error);
      }
      k := k + 1;
    }
    r := Success(());
  }

  /** Lines 205-225: row `i`, one field per column; the decimal branch is never taken. */
  method DailyRow(dt: DataTable, sheet: Sheet, parse: string -> Option<real>, i: int)
    returns (r: Result<Row, Error>)
    ensures r == DailyFieldsFrom(sheet, dt.columns, parse, i, 0)
  {
    var row := dt.NewRow();
    var j := 0;
    PrependNothing(DailyFieldsFrom(sheet, dt.columns, parse, i, 0));
    while j < |row|
      invariant j <= |row| == |dt.columns|
      invariant forall k :: j <= k < |row| ==> row[k] == DbNull
      invariant DailyFieldsFrom(sheet, dt.columns, parse, i, 0) == Prepend(row[..j], DailyFieldsFrom(sheet, dt.columns, parse, i, j))
    {
      var cell := CellAt(sheet, i, j + 1);
      ghost var rest := DailyFieldsFrom(sheet, dt.columns, parse, i, j + 1);
      if cell.Filled? {
        if row[j].Dec? {
          // `row[j].GetType()` of a fresh row is `DBNull`, never `Decimal`.
          assert false;
        } else {
          var f := StoreCell(dt.columns[j], Some(cell.text), parse);
          if f.Failure? {
            return Failure(SupportError);
          }
          PrependTwice(row[..j], [f.value], rest);
          row := row[j := f.value];
        }
      } else {
        PrependTwice(row[..j], [DbNull], rest);
      }
      assert row[..j + 1] == row[..j] + [DailyField(sheet, dt.columns, parse, i, j).value];
      j := j + 1;
    }
    assert row[..j] + [] == row;
    assert DailyFieldsFrom(sheet, dt.columns, parse, i, j) == Success([]);
    r := Success(row);
  }

  // ---------------------------------------------------------------------------
  // Properties of the daily-dosage import.

  /** Field `k` of a built row is the stored value of cell `k + 1`: `DBNull` for an empty cell,
      its text in a text column, its parsed value in a decimal column. */
  lemma {:induction false} DailyFieldsEntry(sheet: Sheet, schema: seq<Column>, parse: string -> Option<real>, i: int, j: nat, k: nat)
    requires j <= k < |schema| && DailyFieldsFrom(sheet, schema, parse, i, j).Success?
    ensures |DailyFieldsFrom(sheet, schema, parse, i, j).value| == |schema| - j
    ensures DailyField(sheet, schema, parse, i, k).Success?
    ensures DailyFieldsFrom(sheet, schema, parse, i, j).value[k - j] == DailyField(sheet, schema, parse, i, k).value
    decreases |schema| - j
  {
    if k > j {
      DailyFieldsEntry(sheet, schema, parse, i, j + 1, k);
    } else if j + 1 < |schema| {
      DailyFieldsEntry(sheet, schema, parse, i, j + 1, j + 1);
    }
  }

  /** An empty cell leaves its field at `DBNull`; a non-empty cell of a text column is stored as
      its text. */
  lemma DailyFieldValues(sheet: Sheet, schema: seq<Column>, parse: string -> Option<real>, i: int, k: nat)
    requires k < |schema|
    ensures CellAt(sheet, i, k + 1).Blank? ==> DailyField(sheet, schema, parse, i, k) == Success(DbNull)
    ensures CellAt(sheet, i, k + 1).Filled? && schema[k].kind == Text ==>
      DailyField(sheet, schema, parse, i, k) == Success(Str(CellAt(sheet, i, k + 1).text))
    ensures DailyField(sheet, schema, parse, i, k).Failure? <==>
      CellAt(sheet, i, k + 1).Filled? && schema[k].kind == Decimal && parse(CellAt(sheet, i, k + 1).text).None?
  {
  }

  /** A successful fill has one row per worksheet row from `i` on, in order. */
  lemma {:induction false} DailyRowsCount(sheet: Sheet, schema: seq<Column>, parse: string -> Option<real>, i: int)
    requires DailyRowsFrom(sheet, schema, parse, i).Success?
    ensures |DailyRowsFrom(sheet, schema, parse, i).value| == if i > sheet.lastRow then 0 else sheet.lastRow + 1 - i
    decreases sheet.lastRow + 1 - i
  {
    if i <= sheet.lastRow {
      DailyRowsCount(sheet, schema, parse, i + 1);
    }
  }

  lemma {:induction false} DailyRowsEntry(sheet: Sheet, schema: seq<Column>, parse: string -> Option<real>, i: int, k: nat)
    requires DailyRowsFrom(sheet, schema, parse, i).Success? && k < |DailyRowsFrom(sheet, schema, parse, i).value|
    ensures DailyFieldsFrom(sheet, schema, parse, i + k, 0).Success?
    ensures DailyRowsFrom(sheet, schema, parse, i).value[k] == DailyFieldsFrom(sheet, schema, parse, i + k, 0).value
    decreases k
  {
    if k > 0 {
      DailyRowsEntry(sheet, schema, parse, i + 1, k - 1);
    }
  }

  /** The store sees a `CleanData` of `DailyDosage` and the bulk insert right after it, or less
      when a call is refused; nothing else. */
  lemma DailyCalls(cols: seq<DailyColumn>, sheet: Sheet, parse: string -> Option<real>, rejects: Action -> bool)
    ensures var o := DailyOutcome(cols, sheet, parse, rejects);
      o.failure.None? ==>
        DailyData(cols, sheet, parse).Success? &&
        o.log == [Truncate(DailyTable), BulkInsert(DailyTable, DailyData(cols, sheet, parse).value)]
  {
  }

  /** Every failure of the daily-dosage import is the generic support error. */
  lemma DailyFailure(cols: seq<DailyColumn>, sheet: Sheet, parse: string -> Option<real>, rejects: Action -> bool)
    ensures var o := DailyOutcome(cols, sheet, parse, rejects);
      o.failure.Some? ==> o.failure.value == SupportError
  {
  }

  /** A bulk insert into `DailyDosage` comes only right after it was emptied. */
  lemma DailyInsertAfterTruncate(cols: seq<DailyColumn>, sheet: Sheet, parse: string -> Option<real>, rejects: Action -> bool, k: nat)
    requires var log := DailyOutcome(cols, sheet, parse, rejects).log; k < |log| && log[k].BulkInsert?
    ensures k == 1 && DailyOutcome(cols, sheet, parse, rejects).log[0] == Truncate(DailyTable)
  {
  }

  /** After a successful import `DailyDosage` holds exactly the sheet's rows, whatever the store
      held before: importing the same sheet again does not duplicate them. */
  lemma DailyReplaces(before: seq<Action>, cols: seq<DailyColumn>, sheet: Sheet, parse: string -> Option<real>, rejects: Action -> bool)
    requires DailyOutcome(cols, sheet, parse, rejects).failure.None?
    ensures Contents(before + DailyOutcome(cols, sheet, parse, rejects).log, DailyTable)
      == DailyData(cols, sheet, parse).value.rows
  {
    DailyCalls(cols, sheet, parse, rejects);
    var t := DailyData(cols, sheet, parse).value;
    assert [Truncate(DailyTable), BulkInsert(DailyTable, t)] == [Truncate(DailyTable)] + [BulkInsert(DailyTable, t)];
    ReplaceContents(before, DailyTable, t);
  }

  /** A daily-dosage sheet without cells raises the support error at `Dimension.End.Row`, before
      `CleanData`: the store is not touched and keeps its `DailyDosage` rows. */
  lemma DailyEmptySheetUntouched(before: seq<Action>, cols: seq<DailyColumn>, sheet: Sheet, parse: string -> Option<real>, rejects: Action -> bool)
    requires NoDimension(sheet)
    ensures DailyOutcome(cols, sheet, parse, rejects) == Raise(SupportError)
    ensures Contents(before + DailyOutcome(cols, sheet, parse, rejects).log, DailyTable) == Contents(before, DailyTable)
  {
    assert before + [] == before;
  }

  /** The rows of the loaded table: one per worksheet row from 2 on, and one field per
      configured column. */
  lemma DailyDataShape(cols: seq<DailyColumn>, sheet: Sheet, parse: string -> Option<real>)
    requires DailyData(cols, sheet, parse).Success?
    ensures DailyData(cols, sheet, parse).value.columns == DailySchema(cols)
    ensures |DailyData(cols, sheet, parse).value.rows| == if sheet.lastRow < 2 then 0 else sheet.lastRow - 1
  {
    AddColumnsValue([], DailySchema(cols));
    assert [] + DailySchema(cols) == DailySchema(cols);
    DailyRowsCount(sheet, DailySchema(cols), parse, 2);
  }
}
