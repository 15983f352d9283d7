/** The in-memory `DataTable`: typed columns whose names must be distinct, and rows of fields that
    the column type coerces on assignment. */
module Tables {
  import opened Wrappers
  import opened Errors
  import opened Workbook

  /** The column types the importer uses: `typeof(string)` and `typeof(Decimal)`. */
  datatype Kind = Text | Decimal

  datatype Column = Column(name: string, kind: Kind)

  /** A field of a row: `DBNull`, a string, or a decimal. */
  datatype Field = DbNull | Str(text: string) | Dec(amount: real)

  type Row = seq<Field>

  /** The contents of a table at one moment: what a bulk insert hands to the store. */
  datatype Table = Table(columns: seq<Column>, rows: seq<Row>)

  function Names(cols: seq<Column>): (ns: seq<string>)
    ensures |ns| == |cols| && forall k :: 0 <= k < |cols| ==> ns[k] == cols[k].name
  {
    seq(|cols|, k requires 0 <= k < |cols| => cols[k].name)
  }

  predicate DistinctNames(cols: seq<Column>) {
    forall i, j :: 0 <= i < j < |cols| ==> cols[i].name != cols[j].name
  }

  /** The columns `Columns.Add` leaves after adding `cols` one by one to a table that holds
      `acc`, or the `DuplicateNameException` of the first column whose name is already taken
      (the comparison is exact). */
  function AddColumns(acc: seq<Column>, cols: seq<Column>): Result<seq<Column>, Error>
    decreases |cols|
  {
    if cols == [] then Success(acc)
    else if cols[0].name in Names(acc) then Failure(DuplicateColumnName(cols[0].name))
    else AddColumns(acc + [cols[0]], cols[1..])
  }

  /** Adding columns succeeds exactly when all names are distinct, and then every column is
      kept, in order. */
  lemma {:induction false} AddColumnsSucceeds(acc: seq<Column>, cols: seq<Column>)
    requires DistinctNames(acc)
    ensures AddColumns(acc, cols).Success? <==> DistinctNames(acc + cols)
    ensures AddColumns(acc, cols).Success? ==> AddColumns(acc, cols).value == acc + cols
    decreases |cols|
  {
    if cols == [] {
      assert acc + cols == acc;
    } else {
      var c := cols[0];
      assert acc + cols == (acc + [c]) + cols[1..];
      if c.name in Names(acc) {
        var k :| 0 <= k < |acc| && Names(acc)[k] == c.name;
        assert (acc + cols)[k].name == (acc + cols)[|acc|].name;
      } else {
        assert DistinctNames(acc + [c]);
        AddColumnsSucceeds(acc + [c], cols[1..]);
      }
    }
  }

  /** A table that accepts every column holds them after its own, in order. */
  lemma {:induction false} AddColumnsValue(acc: seq<Column>, cols: seq<Column>)
    ensures AddColumns(acc, cols).Success? ==> AddColumns(acc, cols).value == acc + cols
    decreases |cols|
  {
    if cols == [] {
      assert acc + cols == acc;
    } else if cols[0].name !in Names(acc) {
      assert acc + cols == (acc + [cols[0]]) + cols[1..];
      AddColumnsValue(acc + [cols[0]], cols[1..]);
    }
  }

  /** When the first `k` columns are fine and column `k` repeats a name, the add fails there,
      naming that column. */
  lemma {:induction false} AddColumnsFailsAt(acc: seq<Column>, cols: seq<Column>, k: nat)
    requires k < |cols| && DistinctNames(acc + cols[..k]) && cols[k].name in Names(acc + cols[..k])
    ensures AddColumns(acc, cols) == Failure(DuplicateColumnName(cols[k].name))
    decreases k
  {
    if k == 0 {
      assert acc + cols[..0] == acc;
    } else {
      var c := cols[0];
      assert acc + cols[..k] == (acc + [c]) + cols[1..][..k - 1];
      assert (acc + cols[..k])[|acc|] == c;
      assert forall i | 0 <= i < |acc| :: (acc + cols[..k])[i] == acc[i];
      AddColumnsFailsAt(acc + [c], cols[1..], k - 1);
    }
  }

  /** What the `DataRow` setter does with a value assigned to a field of column `col`, the value
      being null or a text. A string column is of a reference type, so null is stored as
      `DBNull`; a `Decimal` column is of a value type, so null raises. A text is stored as itself
      in a string column, and converted in a decimal column, which raises when it does not
      parse. */
  function StoreCell(col: Column, value: Option<string>, parse: string -> Option<real>): (r: Result<Field, Error>)
    ensures r.Success? <==> col.kind == Text || (value.Some? && parse(value.value).Some?)
    ensures r == Success(DbNull) <==> col.kind == Text && value.None?
    ensures value.None? && col.kind == Decimal ==> r == Failure(NullNotStored(col.name))
    ensures value.Some? && col.kind == Decimal && parse(value.value).None? ==>
      r == Failure(CellNotStored(value.value, col.name))
    ensures r.Success? && value.Some? && col.kind == Text ==> r.value == Str(value.value)
    ensures r.Success? && value.Some? && col.kind == Decimal ==> r.value == Dec(parse(value.value).value)
  {
    match value
    case None =>
      if col.kind == Text then Success(DbNull) else Failure(NullNotStored(col.name))
    case Some(t) =>
      match col.kind
      case Text => Success(Str(t))
      case Decimal => if parse(t).Some? then Success(Dec(parse(t).value)) else Failure(CellNotStored(t, col.name))
  }

  /** `rows`, each lengthened by a `DBNull` field for a column just added. */
  function WithNullField(rows: seq<Row>): (r: seq<Row>)
    ensures |r| == |rows| && forall k :: 0 <= k < |rows| ==> r[k] == rows[k] + [DbNull]
  {
    seq(|rows|, k requires 0 <= k < |rows| => rows[k] + [DbNull])
  }

  /** `System.Data.DataTable`, reduced to its column collection and its rows. */
  class DataTable {
    var columns: seq<Column>
    var rows: seq<Row>

    constructor()
      ensures columns == [] && rows == []
    {
      columns := [];
      rows := [];
    }

    /** `Columns.Add(new DataColumn(c.name, type))`: refuses a name already taken; existing rows
        get a `DBNull` field for the new column. */
    method AddColumn(c: Column) returns (r: Result<(), Error>)
      modifies this
      ensures r.Success? <==> c.name !in Names(old(columns))
      ensures r.Failure? ==> r.error == DuplicateColumnName(c.name)
      ensures columns == if r.Success? then old(columns) + [c] else old(columns)
      ensures rows == if r.Success? then WithNullField(old(rows)) else old(rows)
    {
      if c.name in Names(columns) {
        return Failure(DuplicateColumnName(c.name));
      }
      columns := columns + [c];
      rows := WithNullField(rows);
      r := Success(());
    }

    /** `NewRow()`: a row with `DBNull` in every column. A definition: its ensures only spell out
        the body. */
    function NewRow(): (row: Row)
      reads this
      ensures |row| == |columns| && forall k :: 0 <= k < |row| ==> row[k] == DbNull
    {
      seq(|columns|, _ => DbNull)
    }

    /** `Rows.Add(row)`. */
    method AddRow(row: Row)
      modifies this
      ensures rows == old(rows) + [row] && columns == old(columns)
    {
      rows := rows + [row];
    }

    function Snapshot(): Table
      reads this
    {
      Table(columns, rows)
    }
  }
}
