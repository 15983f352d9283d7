/** The failures the import path can raise. Each constructor stands for one exception the
    source lets escape (or, for SupportError, the one it rethrows). */
module Errors {

  datatype Error =
      /** `Convert.ToInt32(Math.Pow(26, i))` is past Int32 once a column reference has 8 letters. */
    | ColumnIndexOverflow
      /** `Cells[row, column]` outside the worksheet's addressable grid. */
    | CellAddressOutOfRange(row: int, column: int)
      /** `Value.ToString()` on an empty header cell. */
    | MissingHeader(column: int)
      /** The configuration has no range section for the sheet's period code. */
    | MissingPeriodRange(key: string)
      /** `DataColumnCollection.Add` with a column name the table already holds. */
    | DuplicateColumnName(name: string)
      /** `row[j]` for a column index the in-memory table does not have. */
    | NoSuchColumn(index: int)
      /** The `ArgumentException` of the `DataRow` setter for a text its column's type cannot hold
          ("Couldn't store <value> in <column> Column"): it names the value and the column, but
          not the sheet or the row. */
    | CellNotStored(value: string, columnName: string)
      /** The `ArgumentException` of the `DataRow` setter for null in a column of a value type
          ("Cannot set Column <column> to be null. Please use DBNull instead."). */
    | NullNotStored(columnName: string)
      /** `sheet.Dimension.End` on a worksheet without cells, whose `Dimension` is null: a
          `NullReferenceException`. */
    | NullDimension
      /** The exception `new ExcelPackage(stream)` raises for a stream it cannot open as a
          package; it is not the `OpenXmlPackageException` the code's handler names. */
    | PackageUnreadable
      /** A call into the relational store failed. */
    | StoreFailure
      /** The generic "please contact support" ApplicationException of the daily-dosage import. */
    | SupportError
}
