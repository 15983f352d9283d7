# Dosage spreadsheet import, modelled in Dafny

The importer of `DosageExcel.cs` takes an uploaded workbook and loads its sheets into a
relational store, sheet by sheet in workbook order. The dispatch is by upper-cased sheet name:

- **`MTH` and `MAT`** are the period sheets. The first of them in the workbook calls
  `usp_cleanBizTable`, which drops the period tables of an earlier import.
- For a period sheet, the importer then works out three ranges from the sheet's range section in
  the column mapping: the value, period-to-date and volume columns. Each range is a pair of
  column letters, turned into numbers by `GetColumnIndex`.
- It names one derived column per header in those ranges:
  - the name is `VAL_`, `PTD_` or `VOL_`;
  - followed by the header's last `DateLengh` characters;
  - with every `/` replaced by `_`.
- It builds an in-memory table with:
  - the configured input columns that are not primary keys, as text;
  - then the derived columns, as decimals.
- It fills that table from worksheet row 2 to the last used row. When that gives at least one
  row, it creates the table `BIZ_<sheet name><MMdd>` with one `create table` statement and
  bulk-inserts the rows into it.
- **`DAILYDOSAGE`** replaces the contents of the `DailyDosage` table. Its columns and their
  types come from the `DailyDosageColumns` section.
- **Every other sheet** is skipped.
- When the load raises nothing, `usp_initBizData` post-processes the data. A document the package
  cannot open raises, and the post-processing does not run.

## How the model is built

- **The store** is a `Database` object (`store.dfy`). It records the calls it accepted, in
  order: statement executions, bulk inserts, table truncations and procedure calls.
- **Refused calls** (a lost connection, a SQL error) are fixed by the store's `rejects`
  predicate, which depends on the call alone. A refused call changes nothing and raises.
- **The in-memory table** is a `DataTable` object (`tables.dfy`). Its column list and rows are
  updated in place, and a duplicate column name is refused.
- **The methods** follow the source: loops, early returns and the
  `tempDataHasCleaned` flag. Each is proved against a specification function:
  - `ImportOutcome` and `LoadOutcome`;
  - `SheetsOutcome` and `SheetOutcome`;
  - `PeriodOutcome`, `RangeOutcome`, `FillOutcome` and `StoreOutcome`;
  - `DailyOutcome`.

  Each of these gives the calls a run makes and the error that ends it. The lemmas in the tables
  below state the source's promises about these functions.
- **Values:**
  - The column index uses the source's arithmetic:
    - `(code - 64) % 26` with C#'s truncating remainder;
    - 32-bit signed wrap-around of the sum;
    - the `OverflowException` of `Convert.ToInt32(Math.Pow(26, i))` once `i` reaches 7.
  - `Environment.NewLine` is `"\r\n"`.
  - The day `DateTime.Now.ToString("MMdd")` is a parameter.
  - Parsing a decimal (the `DataRow` setter's conversion) is a parameter `parse`.

## Where the code surprises

The model follows the code in each of these cases.

- **`Z` counts as 0.** `GetColumnIndex` computes `(code - 64) % 26`, so `Z` contributes 0, not 26.
  Its comment (DosageExcel.cs:326) says the index "will start with 1", but `""`, `"Z"` and
  `"ZZ"` all give 0.
  - `"AZ"` is 26, the same as a spreadsheet's `"Z"`.
  - The index is therefore not increasing in spreadsheet column order.
  - `ColumnAddressing.SampleIndices` states this.
- **No validation of references.** The code does not reject a malformed column reference.
  - A non-letter character simply contributes its own `(code - 64) % 26`.
  - The only failure is the overflow of a reference of eight or more characters.
- **Derived names.** `"12/31/2023"` with a length of 8 gives `VAL__31_2023`, and with 7 gives
  `VAL_31_2023` (`DerivedColumns.SampleNames`).
- **No columns at all.** With no input and no derived column, the statement loses the header's
  trailing line feed instead of a comma: the result is `create table T(\r)`
  (`CreateTable.NoColumns`).
- **The period row fill is positional.** It writes worksheet column `j + 1` into table field `j`,
  for every used worksheet column.
  - It does not look columns up by name.
  - A sheet with more used columns than the table has fails on `row[j]`.
- **A cell a decimal column cannot hold raises an unlocated `ArgumentException`.** The handler at
  DosageExcel.cs:150-153 catches only `InvalidCastException` and would rethrow an error carrying
  the sheet, row and column. The `DataRow` setter, however, reports a failed conversion as an
  `ArgumentException` ("Couldn't store <value> in <column> Column"), so that handler is never
  reached.
  - The exception escapes `LoadExcelToDB`, whose only handler names the Open XML SDK's package
    exception, and then escapes `ImportExcel`.
  - The model raises `CellNotStored(value, column name)`, carrying what that exception reports.
    `RowFill.FieldsFromFailure` and `RowFill.FillSheetFailure` state which cell of which row
    caused it.
  - The store sees the same calls either way.
- **An empty cell that lands in a decimal column raises too.** Line 148 assigns
  `Value?.ToString()`, which is null for an empty cell. The fill is positional: field `j` gets
  worksheet column `j + 1`. So what matters is whether table column `j` is one of the derived
  decimal columns, not what the worksheet column holds.
  - The `DataRow` setter stores null as `DBNull` only in a column of a reference type, such as
    the string columns of the input fields.
  - In a `Decimal` column, which is a value type, it throws an `ArgumentException` ("Cannot set
    Column <column> to be null. Please use DBNull instead."). That is `NullNotStored(column
    name)` in the model.
  - The handler at line 150 does not catch it either. So a period sheet with one empty cell, in a
    data row, at a position that falls on a derived column of the table, creates no table,
    inserts nothing, and keeps `usp_initBizData` from running.
  - `RowFill.EmptyDecimalCell` shows such a sheet.
  - The daily-dosage loop avoids this by assigning only when `Value != null` (line 210).
- **A document that cannot be opened is not swallowed.** The handler at line 169 names
  `DocumentFormat.OpenXml.Packaging.OpenXmlPackageException`, a type of the Open XML SDK.
  - The package is opened by EPPlus (`new ExcelPackage(postStream)`, line 85), which raises its
    own exceptions for a stream it cannot open, not that type.
  - Nothing else in the `try` uses the Open XML SDK, so the handler never runs.
  - The failure escapes `LoadExcelToDB` and `ImportExcel`, and `usp_initBizData` is not called.
    The model raises `PackageUnreadable` (`Import.UnreadableRaises`).
- **A sheet without cells raises at its null `Dimension`.**
  - **Daily-dosage sheet:** `Dimension.End.Row` (line 205) raises inside the `try`. That becomes
    the support error before `CleanData`, so `DailyDosage` keeps its rows
    (`DailyDosage.DailyEmptySheetUntouched`).
  - **Period sheet:** one whose ranges are all empty gets past its headers. It then raises at
    line 141, after the clearing, and the post-processing is skipped
    (`Import.EmptyPeriodSheetRaises`).
- **`DailyDosage` coercion.** The check `row[j].GetType() == "System.Decimal"` is never true for a
  fresh row, whose fields are `DBNull`. So every non-empty daily cell is assigned as text, and the
  column's own type does the coercion.

## Model

| member | source | states |
|---|---|---|
| `ColumnAddressing.GetColumnIndex` | DosageExcel.cs:329-342 | the result is the index of the trimmed, upper-cased reference: its weighted character sum wrapped to 32 bits, or the overflow error for eight or more characters |
| `ColumnAddressing.SumFromRight` | DosageExcel.cs:332-341 | the loop from the rightmost character computes the 32-bit weighted sum, and fails exactly when the reference has more than seven characters |
| `ColumnAddressing.SingleLetter` | DosageExcel.cs:336-338 | a single letter `A`..`Y` (also lower case) is column 1..25; `Z` is 0 |
| `ColumnAddressing.UpperLetterDigit` | DosageExcel.cs:338 | `(code - 64) % 26` of an upper-case letter: 1..25 for `A`..`Y`, 0 for `Z` |
| `ColumnAddressing.TwoLetters` | DosageExcel.cs:333-339 | a two-letter reference weighs its first letter by 26 and adds the second |
| `ColumnAddressing.SampleIndices` | DosageExcel.cs:329-342 | the empty reference is 0, `AA` 27, `BA` 53, and `AZ` 26 |
| `ColumnAddressing.CaseAndWhiteSpaceInsensitive` | DosageExcel.cs:331 | surrounding white space and letter case do not change the index |
| `ColumnAddressing.NormalizeLetters` | DosageExcel.cs:331 | an upper-case letter reference is unchanged by `Trim().ToUpper()` |
| `ColumnAddressing.NoWrapUpToSixLetters` | DosageExcel.cs:333-340 | for up to six upper-case letters nothing wraps: the index is the plain weighted sum, between 0 and 26^n - 1 |
| `Int32.Wrap32` | DosageExcel.cs:339 | the unchecked Int32 result lies in the Int32 range and equals the exact value when that fits |
| `Int32.TruncRem` | DosageExcel.cs:338 | C#'s `%`: the remainder has the dividend's sign and magnitude below the divisor |
| `Text.RightMeaning` | DosageExcel.cs:121 | `Right(n)` is the last `n` characters, or the whole text when shorter |
| `Text.ReplaceSlashMeaning` | DosageExcel.cs:121 | `Replace("/", "_")` keeps the length and changes exactly the slashes to underscores |
| `Workbook.HeaderText` | DosageExcel.cs:121 | a header is read exactly when its column is within the sheet's grid and the cell is not empty, and then it is the cell's text |
| `DerivedColumns.DerivedNameForm` | DosageExcel.cs:119-134 | a derived name is the prefix, then the last `DateLengh` header characters (all of them when shorter) with `/` turned into `_`; no `/` follows the prefix |
| `DerivedColumns.SampleNames` | DosageExcel.cs:121 | `12/31/2023` gives `VAL_31_2023` with length 7 and `VAL__31_2023` with length 8 |
| `DerivedColumns.AppendRange` | DosageExcel.cs:119-122 | one range loop appends to the list the names of the range's columns in ascending order, or stops at the first unreadable header |
| `DerivedColumns.ResolveBounds` | DosageExcel.cs:111-116 | the six references are resolved in the source's order; the first overflow aborts |
| `DerivedColumns.CollectDateColumns` | DosageExcel.cs:106-134 | the derived list the three loops build is `DateColumns` of the sheet and its range section |
| `DerivedColumns.AppendRanges` | DosageExcel.cs:118-134 | the value names, then the period-to-date names, then the volume names, in one list |
| `DerivedColumns.RangeNamesSucceeds` | DosageExcel.cs:119-122 | a range yields names exactly when every header from start to end can be read |
| `DerivedColumns.RangeNamesLength` | DosageExcel.cs:119-122 | a successful range has one name per column from start to end (none when end < start) |
| `DerivedColumns.RangeNamesEntry` | DosageExcel.cs:119-122 | the name at position `c - start` is derived from the header of column `c` |
| `DerivedColumns.RangeNamesFailsAt` | DosageExcel.cs:119-122 | a failing range reports the first column in ascending order whose header cannot be read |
| `DerivedColumns.DateColumnsShape` | DosageExcel.cs:106-134 | the derived list is value, then PTD, then volume names, and its length is the sum of the three spans |
| `Tables.AddColumnsSucceeds` | DosageExcel.cs:291-296 | adding columns succeeds exactly when all names are distinct, and then keeps every column in order |
| `Tables.AddColumnsValue` | DosageExcel.cs:291-296 | a successful add leaves the earlier columns followed by the new ones |
| `Tables.AddColumnsFailsAt` | DosageExcel.cs:291-296 | the first column whose name is taken is the one the `DuplicateNameException` names |
| `Tables.StoreCell` | DosageExcel.cs:148 | the row setter stores null as `DBNull` in a text column and refuses it in a decimal column (`NullNotStored`); it stores a text as itself in a text column and as its parsed number in a decimal column, refusing unparsable text there (`CellNotStored`); it succeeds exactly in the other cases |
| `Tables.DataTable.constructor` | DosageExcel.cs:283 | a new table has no columns and no rows |
| `Tables.DataTable.AddColumn` | DosageExcel.cs:291 | a column is added exactly when its name is new; existing rows get a `DBNull` field; otherwise nothing changes and the duplicate is reported |
| `Tables.DataTable.AddRow` | DosageExcel.cs:156 | the row is appended and the columns are unchanged |
| `MemoryTable.CreateMemoryDataTable` | DosageExcel.cs:281-300 | the table is created exactly when the schema's names are distinct; it then holds the non-key input columns as text followed by the derived columns as decimals, and no rows; otherwise the duplicate is reported |
| `MemoryTable.AddTextColumns` | DosageExcel.cs:284-292 | the first loop adds a text column per input column without `PrimaryKey`, in order |
| `MemoryTable.AddDecimalColumns` | DosageExcel.cs:294-297 | the second loop adds a decimal column per derived name, in order |
| `MemoryTable.MemorySchemaSize` | DosageExcel.cs:281-300 | the schema has one column per non-key input column plus one per derived name |
| `MemoryTable.TextColumnsAppend` | DosageExcel.cs:284-292 | configuration order is kept across the input columns |
| `MemoryTable.NonKeyColumnKept` | DosageExcel.cs:287-291 | every input column without `PrimaryKey` has a text column of its name |
| `MemoryTable.TextColumnsFromNonKey` | DosageExcel.cs:287-291 | every text column comes from an input column without `PrimaryKey` |
| `MemoryTable.MemorySchemaKinds` | DosageExcel.cs:281-300 | text columns come first, then only decimal columns, each named by its derived name |
| `RowFill.FillRows` | DosageExcel.cs:141-158 | the outer loop appends the rows of `FillSheet` for the table's columns, leaves the columns alone, and returns the fill's error |
| `RowFill.FillRow` | DosageExcel.cs:143-155 | the inner loop builds the worksheet row's fields for the table's columns, as `FilledRow` says |
| `RowFill.FieldsFromSucceeds` | DosageExcel.cs:144-155 | a row is built exactly when the table has a field for each used column and each used cell can be stored |
| `RowFill.FieldsFromEntry` | DosageExcel.cs:144-155 | a used column's field is its stored cell value; later fields stay `DBNull` |
| `RowFill.FieldsFromFailure` | DosageExcel.cs:144-155 | a row error is the `row[j]` of a used column the table has no field for, or the setter's exception for a cell of that row a decimal column refuses: an empty cell (null, naming the column) or a text it cannot parse (carrying the text and the column's name) |
| `RowFill.EmptyDecimalCell` | DosageExcel.cs:141-155 | a data row whose derived-column cell is empty stops the fill with the null refused by that decimal column, and no row is added |
| `RowFill.RowsFromCount` | DosageExcel.cs:141-157 | a fill without error adds one row per worksheet row from `i` to the last one |
| `RowFill.RowsFromEntry` | DosageExcel.cs:141-157 | the `k`-th added row is built from worksheet row `i + k` |
| `RowFill.RowsFromFailure` | DosageExcel.cs:141-157 | a failing fill stops at the first row that cannot be built, after adding all earlier rows |
| `RowFill.FillSheetCount` | DosageExcel.cs:141-157 | without error the fill has `lastRow - 1` rows (none for fewer than two rows) |
| `RowFill.FillSheetFailure` | DosageExcel.cs:141-157 | a failing fill is the null `Dimension` of a sheet without cells, with no row added, exactly when the sheet has none; otherwise its error is caused by one of the rows from 2 to the last, as `FieldsFromFailure` says |
| `CreateTable.BuildCreateTableSql` | DosageExcel.cs:250-268 | the builder's text, less its last character and closed by `)`, is `CreateTableSql` |
| `CreateTable.AppendInputClauses` | DosageExcel.cs:252-261 | each input column's clause is appended followed by a comma |
| `CreateTable.AppendDateClauses` | DosageExcel.cs:263-266 | each derived column's clause is appended followed by a comma |
| `CreateTable.RemoveLastAndClose` | DosageExcel.cs:267-268 | removing the last character drops the trailing comma (with clauses) or the header's line feed (without) |
| `CreateTable.CreateDBTable` | DosageExcel.cs:247-271 | the statement is executed; when accepted, the result is `BIZ_` + period name + day; when refused, the store is unchanged and the store error is raised |
| `CreateTable.ClauseListed` | DosageExcel.cs:251-268 | the `k`-th clause is the `k`-th input column with its `Type` and `identity(1,1)` exactly for a primary key, then the derived names with `decimal(38,10)`; neighbours are separated by one comma and the last is followed by `)` |
| `CreateTable.TerminatedJoin` | DosageExcel.cs:260-267 | the builder's clause text is the comma-joined list plus one trailing comma |
| `CreateTable.LastClauseCloses` | DosageExcel.cs:267-268 | with a column the statement ends with the last clause and `)`, with no comma before it |
| `CreateTable.DateColumnLast` | DosageExcel.cs:263-268 | with derived columns the statement ends with `decimal(38,10))` |
| `CreateTable.KeyColumnLast` | DosageExcel.cs:255-268 | a primary key as last column ends the statement with `identity(1,1))` |
| `CreateTable.NoColumns` | DosageExcel.cs:251-268 | with no column the statement is `create table T(\r)` |
| `CreateTable.TwoColumns` | DosageExcel.cs:251-268 | one input column and one derived column: both clauses, one comma between them |
| `CreateTable.TableNameInjective` | DosageExcel.cs:249 | with a four-character day, the table name determines the period name and the day |
| `Store.Database.Apply` | DosageExcel.cs:229-230 | a call is appended to the store's log exactly when the store accepts it |
| `Store.ReplaceContents` | DosageExcel.cs:229-230 | emptying a table, then bulk-inserting into it, leaves exactly the inserted rows |
| `Store.ContentsUntouched` | DosageExcel.cs:229-230 | calls that neither empty nor fill a table leave its rows alone |
| `DailyDosage.ImportDailyDosageToDB` | DosageExcel.cs:182-238 | the store receives the calls of `DailyOutcome` and the result reports its error |
| `DailyDosage.BuildDailyTable` | DosageExcel.cs:186-227 | the table is built exactly when `DailyData` succeeds, and then holds its schema and rows; every failure is the generic support error |
| `DailyDosage.AddDailyColumns` | DosageExcel.cs:187-201 | one `Columns.Add` per property; it succeeds exactly when the names are distinct |
| `DailyDosage.DailyRow` | DosageExcel.cs:205-225 | the row loop builds the fields `DailyFieldsFrom` gives, one per column |
| `DailyDosage.DailyFieldsEntry` | DosageExcel.cs:208-224 | field `k` of a built row is the stored value of cell `k + 1` |
| `DailyDosage.DailyFieldValues` | DosageExcel.cs:210-222 | an empty cell leaves `DBNull`, a text cell is stored as its text, and only unparsable text in a decimal column fails |
| `DailyDosage.DailyRowsCount` | DosageExcel.cs:205-226 | a built table has one row per worksheet row from `i` on |
| `DailyDosage.DailyRowsEntry` | DosageExcel.cs:205-226 | the `k`-th row is built from worksheet row `i + k` |
| `DailyDosage.DailyDataShape` | DosageExcel.cs:187-226 | the loaded table has the declared schema and `lastRow - 1` rows |
| `DailyDosage.DailyCalls` | DosageExcel.cs:229-230 | a successful import truncates `DailyDosage` and then bulk-inserts the built table, nothing else |
| `DailyDosage.DailyFailure` | DosageExcel.cs:233-237 | every failure is the generic support error |
| `DailyDosage.DailyInsertAfterTruncate` | DosageExcel.cs:229-230 | a bulk insert is always the second call, right after the truncation |
| `DailyDosage.DailyReplaces` | DosageExcel.cs:229-230 | after a successful import `DailyDosage` holds exactly the sheet's rows, whatever it held before |
| `DailyDosage.DailyEmptySheetUntouched` | DosageExcel.cs:205 | a daily-dosage sheet without cells raises the support error with no call, so `DailyDosage` keeps what it held |
| `Import.ImportExcel` | DosageExcel.cs:71-77 | the store receives the calls of `ImportOutcome` and the result reports its error |
| `Import.LoadExcelToDB` | DosageExcel.cs:79-180 | the store receives the calls of `LoadOutcome`; an unreadable document changes nothing and raises |
| `Import.ImportSheets` | DosageExcel.cs:88-167 | the sheet loop performs `SheetsOutcome` from a clean flag of false, stopping at the first error |
| `Import.ImportSheet` | DosageExcel.cs:92-166 | one sheet performs `SheetOutcome` and the flag becomes `NextCleaned` |
| `Import.ImportPeriod` | DosageExcel.cs:100-166 | the clearing, unless already done, then the period sheet's own calls |
| `Import.ClearTempData` | DosageExcel.cs:276-279 | calls `usp_cleanBizTable`, logged exactly when accepted |
| `Import.ImportPeriodSheet` | DosageExcel.cs:106-166 | a period without a range section raises before any call; otherwise its range is imported |
| `Import.ImportRange` | DosageExcel.cs:106-138 | derived names, then the in-memory table, then the fill and store, as `RangeOutcome` says |
| `Import.FillAndStore` | DosageExcel.cs:141-166 | the fill, then the destination table, as `FillOutcome` says |
| `Import.StoreTable` | DosageExcel.cs:160-166 | create and insert only when the table has rows, as `StoreOutcome` says |
| `Import.StoreWrites` | DosageExcel.cs:160-166 | at most the `create table` statement, then the insert of those rows into that table; nothing without rows; failures are store errors |
| `Import.RangeWrites` | DosageExcel.cs:106-166 | a period sheet that writes has readable headers, its full `lastRow - 1` rows, and its own table name and statement; without error it writes two calls, or none for fewer than two rows |
| `Import.PeriodWritesOnly` | DosageExcel.cs:106-166 | after the clearing a period sheet only executes statements and bulk-inserts |
| `Import.RangeWritesOnly` | DosageExcel.cs:108-166 | the range part writes only statements and bulk-inserts |
| `Import.FillWritesOnly` | DosageExcel.cs:141-166 | the fill and store part writes only statements and bulk-inserts |
| `Import.DailyWritesOnly` | DosageExcel.cs:229-230 | the daily-dosage sheet only truncates and fills `DailyDosage` |
| `Import.OtherSheetIgnored` | DosageExcel.cs:92 | a sheet that is neither period nor daily dosage makes no call and leaves the flag |
| `Import.OtherSheetsIgnored` | DosageExcel.cs:90-99 | removing such a sheet from the workbook changes nothing |
| `Import.SheetLog` | DosageExcel.cs:92-105 | one sheet never post-processes; only a period sheet clears, once, first, and only when the flag is unset |
| `Import.SheetsLog` | DosageExcel.cs:88-105 | over the sheets the post-processing never runs; with the flag set nothing clears; otherwise clearing is at most once and precedes every `create table` |
| `Import.CleanedOnceFirst` | DosageExcel.cs:100-105 | in any workbook the period tables are cleared at most once, before the first period table is created |
| `Import.InitAfterLoad` | DosageExcel.cs:71-77 | post-processing runs once, last, exactly when the load raised nothing; a failed load is reported as it is |
| `Import.UnreadableRaises` | DosageExcel.cs:169-172 | an unreadable document makes no call, not even the post-processing, and the import raises the package's error |
| `Import.EmptyPeriodSheetRaises` | DosageExcel.cs:141 | for a period sheet without cells the fill raises at the null `Dimension`, with no call |

## Left out

- **`ExportExcels`, `NewFileName` and `CleanTempDirectory`**: the export path and the temporary
  files are outside the import.
- **`GetColumnMapping`**: this reads the JSON file from disk, and the model takes the parsed
  mapping as a value. A missing period range section is modelled (`MissingPeriodRange`, raised
  after the clearing, at line 108). The rest of a malformed mapping is not modelled: a missing
  `DailyDosageColumns` or `InputColumns` section, a missing property inside a section, a
  non-object property, or a `DateLengh` that is not a number. `DateLengh` is a natural number, and a failing
  `Convert.ToInt32` on it is not modelled.
- **EPPlus (the spreadsheet library):**
  - Opening the package is a `Document` value, either readable or not. The kind of EPPlus
    exception is not modelled: every open failure is `PackageUnreadable`.
  - A sheet's `Dimension` is its last row and column, and a last row of 0 stands for the null
    `Dimension` of a sheet without cells.
  - `Cells[i, j]` is read without bounds in the daily-dosage row loop, so a daily column count
    above 16384 is not modelled.
- **Logging** (`m_logger`) and the `finally` that disposes the package: neither has an effect on
  the store.
- **`DateTime.Now.ToString("MMdd")`** is a parameter `mmdd`.
- **`ToUpper`** is modelled as ASCII only. Culture-specific case mapping is not modelled.
- **`Right`** is an extension method defined outside `DosageExcel.cs`, which only calls it (line
  121). The model assumes it returns the last `n` characters, or the whole text when the text is
  shorter. `DerivedColumns.DerivedNameForm` rests on that assumption. An implementation that throws
  for a short text is not modelled.
- **UTF-16**: .NET strings are sequences of UTF-16 code units, while the model's strings are
  sequences of Unicode scalar values. For characters outside the Basic Multilingual Plane, a
  surrogate pair is two C# chars. For those characters the model differs from the code in:
  - `Length`;
  - `Right`'s count;
  - `Trim`;
  - `GetColumnIndex`'s per-character `(code - 64) % 26`.
- **The `DataRow` setter** belongs to .NET and is not part of this model. `Tables.StoreCell` takes
  its behaviour for null to be the documented one: `DBNull` for a column of a reference type,
  the exception for a column of a value type. Other storage types are not modelled.
- **The `ArgumentException` messages**: `CellNotStored` keeps only the value and the column name
  it reports, and `NullNotStored` only the column name.
- **Column types**: only `typeof(string)` and `typeof(Decimal)` are modelled. A `CLRType` naming
  any other type, or no type at all (`Type.GetType` returning null), is not modelled.
- **Store semantics**:
  - The effect of SQL text and of the two stored procedures is not modelled. `Contents` knows only
    truncations and bulk inserts.
  - The store's own reasons for refusing a call are the opaque `rejects` predicate.
  - `rejects` depends on the call alone, so the same call is refused on every run or on none. A
    refusal that depends on the store's state is not expressible, such as a `create table` for a
    table an earlier import left in place.
- **The error messages**: errors are identified by kind and location, not by their text.
