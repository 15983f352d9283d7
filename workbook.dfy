/** The uploaded workbook: named worksheets holding a grid of cells. */
module Workbook {
  import opened Wrappers
  import opened Errors

  /** The largest column number of a worksheet (XFD). */
  const MaxColumns: int := 16384

  /** A cell: empty (its `Value` is null) or holding a value, represented by `Value.ToString()`. */
  datatype Cell = Blank | Filled(text: string)

  /** `Value?.ToString()`: null for an empty cell, its text otherwise. */
  function ValueText(c: Cell): (v: Option<string>)
    ensures v.None? <==> c.Blank?
    ensures v.Some? ==> v.value == c.text
  {
    match c
    case Blank => None
    case Filled(t) => Some(t)
  }

  /** A worksheet with its name, the row and column of `Dimension.End`, and its non-empty cells
      keyed by (row, column), both counted from 1. */
  datatype Sheet = Sheet(name: string, lastRow: nat, lastColumn: nat, cells: map<(int, int), string>)

  /** A worksheet without cells has a null `Dimension`; any other has an end row of at least 1,
      so an end row of 0 stands for the null `Dimension`. */
  predicate NoDimension(sheet: Sheet) {
    sheet.lastRow == 0
  }

  /** What `new ExcelPackage(stream)` yields: a stream it cannot open, or the list of worksheets. */
  datatype Document = Unreadable | Workbook(sheets: seq<Sheet>)

  function CellAt(sheet: Sheet, row: int, column: int): Cell {
    if (row, column) in sheet.cells then Filled(sheet.cells[(row, column)]) else Blank
  }

  /** `sheet.Cells[1, column].Value.ToString()`: the header text of a column. */
  function HeaderText(sheet: Sheet, column: int): (r: Result<string, Error>)
    ensures r.Success? <==> 1 <= column <= MaxColumns && CellAt(sheet, 1, column).Filled?
    ensures r.Success? ==> r.value == CellAt(sheet, 1, column).text
  {
    if column < 1 || column > MaxColumns then Failure(CellAddressOutOfRange(1, column))
    else match CellAt(sheet, 1, column)
      case Blank => Failure(MissingHeader(column))
      case Filled(t) => Success(t)
  }
}
