/** `LoadExcelToDB` and `ImportExcel` (lines 71-180 of DosageExcel.cs): the sheets of the uploaded
    workbook dispatched by their upper-cased name, the period tables cleared once before the
    first period sheet, and the post-processing procedure called at the end. */
module Import {
  import opened Wrappers
  import opened Errors
  import opened Text
  import opened Workbook
  import opened Tables
  import opened Config
  import opened Store
  import opened DerivedColumns
  import opened MemoryTable
  import opened RowFill
  import opened CreateTable
  import opened DailyDosage

  const Mth: string := "MTH"
  const Mat: string := "MAT"
  const DailyDosageSheet: string := "DAILYDOSAGE"
  /** Drops the period tables of an earlier import (`ClearTempData`). */
  const CleanProcedure: string := "usp_cleanBizTable"
  /** Post-processes the imported data. */
  const InitProcedure: string := "usp_initBizData"

  datatype SheetKind = Period | Daily | Other

  /** How a sheet is handled, by its upper-cased name. */
  function KindOf(sheet: Sheet): SheetKind {
    var key := ToUpper(sheet.name);
    if key == Mth || key == Mat then Period else if key == DailyDosageSheet then Daily else Other
  }

  /** Lines 106-166, after the clearing: what a period sheet leaves in the store. The range
      section is found by the upper-cased name. */
  function PeriodOutcome(config: ColumnMapping, sheet: Sheet, mmdd: string, parse: string -> Option<real>, rejects: Action -> bool)
    : Outcome
  {
    var key := ToUpper(sheet.name);
    if key !in config.periodRanges then Raise(MissingPeriodRange(key))
    else RangeOutcome(config.inputColumns, sheet, config.periodRanges[key], mmdd, parse, rejects)
  }

  /** Lines 108-138: the derived names, then the in-memory table. */
  function RangeOutcome(inputs: seq<InputColumn>, sheet: Sheet, range: PeriodRange, mmdd: string, parse: string -> Option<real>, rejects: Action -> bool)
    : Outcome
  {
    match DateColumns(sheet, range)
    case Failure(e) => Raise(e)
    case Success(dateCols) =>
      match AddColumns([], MemorySchema(inputs, dateCols))
      case Failure(e) => Raise(e)
      case Success(_) => FillOutcome(inputs, sheet, dateCols, mmdd, parse, rejects)
  }

  /** Lines 141-166: the rows, then the destination table when there are rows. */
  function FillOutcome(inputs: seq<InputColumn>, sheet: Sheet, dateCols: seq<string>, mmdd: string, parse: string -> Option<real>, rejects: Action -> bool)
    : Outcome
  {
    var schema := MemorySchema(inputs, dateCols);
    var fill := FillSheet(sheet, schema, parse);
    if fill.failure.Some? then Raise(fill.failure.value)
    else StoreOutcome(inputs, dateCols, TableName(sheet.name, mmdd), Table(schema, fill.rows), rejects)
  }

  /** Lines 160-166: the table is created and filled only when there are rows; it is named after
      the sheet's own name. */
  function StoreOutcome(inputs: seq<InputColumn>, dateCols: seq<string>, name: string, data: Table, rejects: Action -> bool)
    : Outcome
  {
    if |data.rows| == 0 then Done()
    else Then(Call(Execute(CreateTableSql(name, inputs, dateCols)), StoreFailure, rejects),
              Call(BulkInsert(name, data), StoreFailure, rejects))
  }

  /** The clearing, unless an earlier period sheet did it. */
  function CleanOutcome(cleaned: bool, rejects: Action -> bool): Outcome {
    if cleaned then Done() else Call(CallProcedure(CleanProcedure), StoreFailure, rejects)
  }

  /** What one sheet leaves in the store. */
  function SheetOutcome(config: ColumnMapping, sheet: Sheet, mmdd: string, parse: string -> Option<real>, rejects: Action -> bool, cleaned: bool)
    : Outcome
  {
    match KindOf(sheet)
    case Other => Done()
    case Daily => DailyOutcome(config.dailyColumns, sheet, parse, rejects)
    case Period => Then(CleanOutcome(cleaned, rejects), PeriodOutcome(config, sheet, mmdd, parse, rejects))
  }

  /** `tempDataHasCleaned` after a sheet. */
  function NextCleaned(sheet: Sheet, cleaned: bool): bool {
    cleaned || KindOf(sheet) == Period
  }

  /** The sheets in workbook order, until one raises. */
  function SheetsOutcome(config: ColumnMapping, sheets: seq<Sheet>, mmdd: string, parse: string -> Option<real>, rejects: Action -> bool, cleaned: bool)
    : Outcome
    decreases |sheets|
  {
    if sheets == [] then Done()
    else
      var first := SheetOutcome(config, sheets[0], mmdd, parse, rejects, cleaned);
      Then(first, SheetsOutcome(config, sheets[1..], mmdd, parse, rejects, NextCleaned(sheets[0], cleaned)))
  }

  /** `LoadExcelToDB`: a stream the package cannot open raises, since the handler at line 169
      names another library's exception; a workbook is imported sheet by sheet. */
  function LoadOutcome(doc: Document, config: ColumnMapping, mmdd: string, parse: string -> Option<real>, rejects: Action -> bool)
    : Outcome
  {
    match doc
    case Unreadable => Raise(PackageUnreadable)
    case Workbook(sheets) => SheetsOutcome(config, sheets, mmdd, parse, rejects, false)
  }

  /** `ImportExcel`: the load, then the post-processing procedure. */
  function ImportOutcome(doc: Document, config: ColumnMapping, mmdd: string, parse: string -> Option<real>, rejects: Action -> bool)
    : Outcome
  {
    Then(LoadOutcome(doc, config, mmdd, parse, rejects), Call(CallProcedure(InitProcedure), StoreFailure, rejects))
  }

  // ---------------------------------------------------------------------------
  // What the dispatch promises.

  predicate NoClean(log: seq<Action>) {
    forall k :: 0 <= k < |log| ==> log[k] != CallProcedure(CleanProcedure)
  }

  predicate NoCreate(log: seq<Action>) {
    forall k :: 0 <= k < |log| ==> !log[k].Execute?
  }

  predicate NoInit(log: seq<Action>) {
    forall k :: 0 <= k < |log| ==> log[k] != CallProcedure(InitProcedure)
  }

  /** The period tables are cleared at most once, and before any period table is created. */
  predicate CleanedFirst(log: seq<Action>) {
    (forall i, j :: 0 <= i < j < |log| && log[i] == CallProcedure(CleanProcedure) ==> log[j] != CallProcedure(CleanProcedure))
    && (forall j :: 0 <= j < |log| && log[j].Execute? ==>
          exists i :: 0 <= i < j && log[i] == CallProcedure(CleanProcedure))
  }

  /** What a period sheet may write: the `create table` statement, then the bulk insert of its
      rows into the table just created, and nothing at all for a sheet without data rows. */
  predicate TableWrites(log: seq<Action>, name: string, sql: string, data: Table) {
    |log| <= 2
    && (log != [] ==> |data.rows| > 0 && log[0] == Execute(sql))
    && (|log| == 2 ==> log[1] == BulkInsert(name, data))
  }

  lemma StoreWrites(inputs: seq<InputColumn>, dateCols: seq<string>, name: string, data: Table, rejects: Action -> bool)
    ensures var o := StoreOutcome(inputs, dateCols, name, data, rejects);
      TableWrites(o.log, name, CreateTableSql(name, inputs, dateCols), data)
      && (o.failure.None? ==> |o.log| == if |data.rows| == 0 then 0 else 2)
      && (o.failure.Some? ==> o.failure.value == StoreFailure)
  {
  }

  /** Lines 108-166: the table gets the sheet's own name and the day, the create statement
      lists the input columns and the derived columns, and the insert carries one row per data
      row of the sheet; a sheet read without error writes both or, without data rows, neither. */
  lemma RangeWrites(inputs: seq<InputColumn>, sheet: Sheet, range: PeriodRange, mmdd: string, parse: string -> Option<real>, rejects: Action -> bool)
    ensures var o := RangeOutcome(inputs, sheet, range, mmdd, parse, rejects);
      (o.log != [] ==>
        DateColumns(sheet, range).Success?
        && var dateCols := DateColumns(sheet, range).value;
           var schema := MemorySchema(inputs, dateCols);
           var name := TableName(sheet.name, mmdd);
           FillSheet(sheet, schema, parse).failure.None?
           && |FillSheet(sheet, schema, parse).rows| == sheet.lastRow - 1
           && TableWrites(o.log, name, CreateTableSql(name, inputs, dateCols), Table(schema, FillSheet(sheet, schema, parse).rows)))
      && (o.failure.None? ==> |o.log| == if sheet.lastRow < 2 then 0 else 2)
  {
    var dc := DateColumns(sheet, range);
    if dc.Success? && AddColumns([], MemorySchema(inputs, dc.value)).Success? {
      var schema := MemorySchema(inputs, dc.value);
      var fill := FillSheet(sheet, schema, parse);
      if fill.failure.None? {
        FillSheetCount(sheet, schema, parse);
        StoreWrites(inputs, dc.value, TableName(sheet.name, mmdd), Table(schema, fill.rows), rejects);
      }
    }
  }

  /** Only table statements and inserts. */
  predicate TablesOnly(log: seq<Action>) {
    forall k :: 0 <= k < |log| ==> log[k].Execute? || log[k].BulkInsert?
  }

  /** A period sheet writes only table statements and inserts. */
  lemma PeriodWritesOnly(config: ColumnMapping, sheet: Sheet, mmdd: string, parse: string -> Option<real>, rejects: Action -> bool)
    ensures TablesOnly(PeriodOutcome(config, sheet, mmdd, parse, rejects).log)
  {
    var key := ToUpper(sheet.name);
    if key in config.periodRanges {
      RangeWritesOnly(config.inputColumns, sheet, config.periodRanges[key], mmdd, parse, rejects);
    }
  }

  lemma RangeWritesOnly(inputs: seq<InputColumn>, sheet: Sheet, range: PeriodRange, mmdd: string, parse: string -> Option<real>, rejects: Action -> bool)
    ensures TablesOnly(RangeOutcome(inputs, sheet, range, mmdd, parse, rejects).log)
  {
    var dc := DateColumns(sheet, range);
    if dc.Success? && AddColumns([], MemorySchema(inputs, dc.value)).Success? {
      FillWritesOnly(inputs, sheet, dc.value, mmdd, parse, rejects);
    }
  }

  lemma FillWritesOnly(inputs: seq<InputColumn>, sheet: Sheet, dateCols: seq<string>, mmdd: string, parse: string -> Option<real>, rejects: Action -> bool)
    ensures TablesOnly(FillOutcome(inputs, sheet, dateCols, mmdd, parse, rejects).log)
  {
    var schema := MemorySchema(inputs, dateCols);
    var fill := FillSheet(sheet, schema, parse);
    if fill.failure.None? {
      StoreWrites(inputs, dateCols, TableName(sheet.name, mmdd), Table(schema, fill.rows), rejects);
    }
  }

  /** The daily-dosage sheet only empties and fills `DailyDosage`. */
  lemma DailyWritesOnly(cols: seq<DailyColumn>, sheet: Sheet, parse: string -> Option<real>, rejects: Action -> bool)
    ensures var log := DailyOutcome(cols, sheet, parse, rejects).log;
      forall k :: 0 <= k < |log| ==> log[k] == Truncate(DailyTable) || log[k] == BulkInsert(DailyTable, DailyData(cols, sheet, parse).value)
  {
  }

  /** Sheets that are neither a period nor the daily-dosage sheet do nothing. */
  lemma OtherSheetIgnored(config: ColumnMapping, sheet: Sheet, mmdd: string, parse: string -> Option<real>, rejects: Action -> bool, cleaned: bool)
    requires KindOf(sheet) == Other
    ensures SheetOutcome(config, sheet, mmdd, parse, rejects, cleaned) == Done()
    ensures NextCleaned(sheet, cleaned) == cleaned
  {
  }

  /** Dropping such a sheet from the workbook changes nothing. */
  lemma {:induction false} OtherSheetsIgnored(config: ColumnMapping, before: seq<Sheet>, sheet: Sheet, after: seq<Sheet>, mmdd: string, parse: string -> Option<real>, rejects: Action -> bool, cleaned: bool)
    requires KindOf(sheet) == Other
    ensures SheetsOutcome(config, before + [sheet] + after, mmdd, parse, rejects, cleaned)
      == SheetsOutcome(config, before + after, mmdd, parse, rejects, cleaned)
    decreases |before|
  {
    var all := before + [sheet] + after;
    if before == [] {
      assert all[0] == sheet && all[1..] == after && before + after == after;
      OtherSheetIgnored(config, sheet, mmdd, parse, rejects, cleaned);
      ThenDone(SheetsOutcome(config, after, mmdd, parse, rejects, cleaned));
    } else {
      var first := before[0];
      assert all[0] == first && all[1..] == before[1..] + [sheet] + after;
      assert (before + after)[0] == first && (before + after)[1..] == before[1..] + after;
      OtherSheetsIgnored(config, before[1..], sheet, after, mmdd, parse, rejects, NextCleaned(first, cleaned));
    }
  }

  /** What one sheet can ask of the store, as far as the clearing and the post-processing go. */
  lemma SheetLog(config: ColumnMapping, sheet: Sheet, mmdd: string, parse: string -> Option<real>, rejects: Action -> bool, cleaned: bool)
    ensures var log := SheetOutcome(config, sheet, mmdd, parse, rejects, cleaned).log;
      NoInit(log)
      && (KindOf(sheet) != Period ==> NoClean(log) && NoCreate(log))
      && (KindOf(sheet) == Period && cleaned ==> NoClean(log))
      && (KindOf(sheet) == Period && !cleaned && log != [] ==>
            log[0] == CallProcedure(CleanProcedure) && NoClean(log[1..]))
      && (KindOf(sheet) == Period && !cleaned && log == [] ==>
            SheetOutcome(config, sheet, mmdd, parse, rejects, cleaned).failure.Some?)
  {
    assert CleanProcedure[4] != InitProcedure[4];
    match KindOf(sheet)
    case Other =>
    case Daily =>
      DailyWritesOnly(config.dailyColumns, sheet, parse, rejects);
    case Period =>
      PeriodWritesOnly(config, sheet, mmdd, parse, rejects);
      var p := PeriodOutcome(config, sheet, mmdd, parse, rejects);
      if !cleaned && CallProcedure(CleanProcedure) !in [] && !rejects(CallProcedure(CleanProcedure)) {
        assert ([CallProcedure(CleanProcedure)] + p.log)[1..] == p.log;
      }
  }

  lemma NoCleanAppend(a: seq<Action>, b: seq<Action>)
    requires NoClean(a) && NoClean(b)
    ensures NoClean(a + b)
  {
    assert forall k :: 0 <= k < |a + b| ==> (a + b)[k] == if k < |a| then a[k] else b[k - |a|];
  }

  lemma NoInitAppend(a: seq<Action>, b: seq<Action>)
    requires NoInit(a) && NoInit(b)
    ensures NoInit(a + b)
  {
    assert forall k :: 0 <= k < |a + b| ==> (a + b)[k] == if k < |a| then a[k] else b[k - |a|];
  }

  /** Calls that neither clear nor create keep the order of what follows. */
  lemma QuietThenCleanedFirst(a: seq<Action>, b: seq<Action>)
    requires NoClean(a) && NoCreate(a) && CleanedFirst(b)
    ensures CleanedFirst(a + b)
  {
    var log := a + b;
    forall i, j | 0 <= i < j < |log| && log[i] == CallProcedure(CleanProcedure)
      ensures log[j] != CallProcedure(CleanProcedure)
    {
      assert i >= |a| && log[i] == b[i - |a|] && log[j] == b[j - |a|];
    }
    forall j | 0 <= j < |log| && log[j].Execute?
      ensures exists i :: 0 <= i < j && log[i] == CallProcedure(CleanProcedure)
    {
      assert j >= |a| && log[j] == b[j - |a|];
      var i :| 0 <= i < j - |a| && b[i] == CallProcedure(CleanProcedure);
      assert log[i + |a|] == b[i];
    }
  }

  /** A log that starts with the clearing and never clears again. */
  lemma LeadingClean(log: seq<Action>)
    requires log != [] && log[0] == CallProcedure(CleanProcedure) && NoClean(log[1..])
    ensures CleanedFirst(log)
  {
    forall i, j | 0 <= i < j < |log| && log[i] == CallProcedure(CleanProcedure)
      ensures log[j] != CallProcedure(CleanProcedure)
    {
      assert log[j] == log[1..][j - 1];
    }
    forall j | 0 <= j < |log| && log[j].Execute?
      ensures exists i :: 0 <= i < j && log[i] == CallProcedure(CleanProcedure)
    {
      assert j > 0 && log[0] == CallProcedure(CleanProcedure);
    }
  }

  lemma QuietCleanedFirst(log: seq<Action>)
    requires NoClean(log) && NoCreate(log)
    ensures CleanedFirst(log)
  {
  }

  /** Over the sheets: the post-processing procedure is never among their calls; once the
      tables were cleared they are not cleared again; otherwise they are cleared at most once
      and before the first `create table`. */
  lemma {:induction false} SheetsLog(config: ColumnMapping, sheets: seq<Sheet>, mmdd: string, parse: string -> Option<real>, rejects: Action -> bool, cleaned: bool)
    ensures var log := SheetsOutcome(config, sheets, mmdd, parse, rejects, cleaned).log;
      NoInit(log) && (cleaned ==> NoClean(log)) && (!cleaned ==> CleanedFirst(log))
    decreases |sheets|
  {
    if sheets != [] {
      var sheet := sheets[0];
      var next := NextCleaned(sheet, cleaned);
      var o := SheetOutcome(config, sheet, mmdd, parse, rejects, cleaned);
      var rest := SheetsOutcome(config, sheets[1..], mmdd, parse, rejects, next);
      SheetLog(config, sheet, mmdd, parse, rejects, cleaned);
      SheetsLog(config, sheets[1..], mmdd, parse, rejects, next);
      var log := SheetsOutcome(config, sheets, mmdd, parse, rejects, cleaned).log;
      assert log == if o.failure.Some? then o.log else o.log + rest.log;
      SheetsLogStep(o, rest, log, KindOf(sheet) == Period, cleaned);
    }
  }

  /** One sheet of `SheetsLog`, on the logs alone. */
  lemma SheetsLogStep(o: Outcome, rest: Outcome, log: seq<Action>, period: bool, cleaned: bool)
    requires log == if o.failure.Some? then o.log else o.log + rest.log
    requires NoInit(o.log) && NoInit(rest.log)
    requires !period ==> NoClean(o.log) && NoCreate(o.log)
    requires period && cleaned ==> NoClean(o.log)
    requires period && !cleaned && o.log != [] ==>
      o.log[0] == CallProcedure(CleanProcedure) && NoClean(o.log[1..])
    requires period && !cleaned && o.log == [] ==> o.failure.Some?
    requires cleaned || period ==> NoClean(rest.log)
    requires !cleaned && !period ==> CleanedFirst(rest.log)
    ensures NoInit(log) && (cleaned ==> NoClean(log)) && (!cleaned ==> CleanedFirst(log))
  {
    NoInitAppend(o.log, rest.log);
    if cleaned {
      NoCleanAppend(o.log, rest.log);
    } else if !period {
      QuietCleanedFirst(o.log);
      QuietThenCleanedFirst(o.log, rest.log);
    } else if o.log != [] {
      NoCleanAppend(o.log[1..], rest.log);
      assert (o.log + rest.log)[1..] == o.log[1..] + rest.log;
      LeadingClean(o.log);
      LeadingClean(o.log + rest.log);
    } else {
      QuietCleanedFirst(o.log);
    }
  }

  /** Lines 100-105 (the `tempDataHasCleaned` flag): however many period sheets a workbook
      has, the period tables are cleared at most once, before the first period table is
      created. */
  lemma CleanedOnceFirst(doc: Document, config: ColumnMapping, mmdd: string, parse: string -> Option<real>, rejects: Action -> bool)
    ensures CleanedFirst(LoadOutcome(doc, config, mmdd, parse, rejects).log)
  {
    if doc.Workbook? {
      SheetsLog(config, doc.sheets, mmdd, parse, rejects, false);
    }
  }

  /** Lines 71-77: the post-processing procedure runs once, last, exactly when the load
      raised nothing; a failed load is reported as it is. */
  lemma InitAfterLoad(doc: Document, config: ColumnMapping, mmdd: string, parse: string -> Option<real>, rejects: Action -> bool)
    ensures var load := LoadOutcome(doc, config, mmdd, parse, rejects);
      var o := ImportOutcome(doc, config, mmdd, parse, rejects);
      NoInit(load.log)
      && (load.failure.Some? ==> o == load)
      && (load.failure.None? ==>
            o.log == load.log + (if rejects(CallProcedure(InitProcedure)) then [] else [CallProcedure(InitProcedure)])
            && (o.failure.None? <==> !rejects(CallProcedure(InitProcedure))))
  {
    if doc.Workbook? {
      SheetsLog(config, doc.sheets, mmdd, parse, rejects, false);
    }
  }

  /** Lines 85 and 169-172: a stream the package cannot open escapes the handler, which names
      the Open XML SDK's exception; the import makes no call at all, not even the
      post-processing, and raises the package's error. */
  lemma UnreadableRaises(config: ColumnMapping, mmdd: string, parse: string -> Option<real>, rejects: Action -> bool)
    ensures ImportOutcome(Unreadable, config, mmdd, parse, rejects) == Outcome([], Some(PackageUnreadable))
  {
  }

  /** Line 141: a period sheet without cells whose ranges are all empty reaches the row loop, whose
      `Dimension.End.Row` raises before any table is created. */
  lemma EmptyPeriodSheetRaises(inputs: seq<InputColumn>, sheet: Sheet, dateCols: seq<string>, mmdd: string, parse: string -> Option<real>, rejects: Action -> bool)
    requires NoDimension(sheet)
    ensures FillOutcome(inputs, sheet, dateCols, mmdd, parse, rejects) == Raise(NullDimension)
  {
  }

  // ---------------------------------------------------------------------------

  /** Lines 71-77. */
  method ImportExcel(db: Database, doc: Document, config: ColumnMapping, mmdd: string, parse: string -> Option<real>)
    returns (r: Result<(), Error>)
    modifies db
    ensures db.log == old(db.log) + ImportOutcome(doc, config, mmdd, parse, db.rejects).log
    ensures Reports(r, ImportOutcome(doc, config, mmdd, parse, db.rejects))
  {
    var loaded := LoadExcelToDB(db, doc, config, mmdd, parse);
    if loaded.Failure? {
      return loaded;
    }
    var ok := db.Apply(CallProcedure(InitProcedure));
    if !ok {
      assert db.log == db.log + [];
      return Failure(StoreFailure);
    }
    r := Success(());
  }

  /** Lines 79-180. */
  method LoadExcelToDB(db: Database, doc: Document, config: ColumnMapping, mmdd: string, parse: string -> Option<real>)
    returns (r: Result<(), Error>)
    modifies db
    ensures db.log == old(db.log) + LoadOutcome(doc, config, mmdd, parse, db.rejects).log
    ensures Reports(r, LoadOutcome(doc, config, mmdd, parse, db.rejects))
  {
    match doc
    case Unreadable =>
      // No handler of the code matches the package's exception.
      assert db.log == db.log + [];
      r := Failure(PackageUnreadable);
    case Workbook(sheets) =>
      r := ImportSheets(db, config, sheets, mmdd, parse);
  }

  /** Lines 88-167: the worksheets in workbook order, with `tempDataHasCleaned` carried from
      one to the next; the first error ends the loop. */
  method ImportSheets(db: Database, config: ColumnMapping, sheets: seq<Sheet>, mmdd: string, parse: string -> Option<real>)
    returns (r: Result<(), Error>)
    modifies db
    ensures db.log == old(db.log) + SheetsOutcome(config, sheets, mmdd, parse, db.rejects, false).log
    ensures Reports(r, SheetsOutcome(config, sheets, mmdd, parse, db.rejects, false))
  {
    ghost var rejects := db.rejects;
    ghost var total := SheetsOutcome(config, sheets, mmdd, parse, rejects, false);
    var cleaned := false;
    ghost var done: seq<Action> := [];
    var k := 0;
    ThenDone(total);
    LogRegroup(old(db.log), [], []);
    while k < |sheets|
      invariant 0 <= k <= |sheets| && db.log == old(db.log) + done && db.rejects == rejects
      invariant total == Then(Outcome(done, None), SheetsOutcome(config, sheets[k..], mmdd, parse, rejects, cleaned))
    {
      var res, next := ImportSheet(db, config, sheets[k], mmdd, parse, cleaned);
      ghost var o := SheetOutcome(config, sheets[k], mmdd, parse, rejects, cleaned);
      SheetsStep(config, sheets, k, mmdd, parse, rejects, cleaned, done);
      LogRegroup(old(db.log), done, o.log);
      if res.Failure? {
        return res;
      }
      done := done + o.log;
      cleaned := next;
      k := k + 1;
    }
    LogRegroup(done, [], []);
    r := Success(());
  }

  /** One turn of the sheet loop: the sheet's outcome is appended to what the earlier sheets did,
      and the loop stops at its failure. */
  lemma SheetsStep(config: ColumnMapping, sheets: seq<Sheet>, k: nat, mmdd: string, parse: string -> Option<real>, rejects: Action -> bool, cleaned: bool, done: seq<Action>)
    requires k < |sheets|
    ensures var o := SheetOutcome(config, sheets[k], mmdd, parse, rejects, cleaned);
      var rest := SheetsOutcome(config, sheets[k + 1..], mmdd, parse, rejects, NextCleaned(sheets[k], cleaned));
      Then(Outcome(done, None), SheetsOutcome(config, sheets[k..], mmdd, parse, rejects, cleaned))
        == if o.failure.Some? then Outcome(done + o.log, o.failure)
           else Then(Outcome(done + o.log, None), rest)
  {
    var o := SheetOutcome(config, sheets[k], mmdd, parse, rejects, cleaned);
    var rest := SheetsOutcome(config, sheets[k + 1..], mmdd, parse, rejects, NextCleaned(sheets[k], cleaned));
    assert sheets[k..][0] == sheets[k] && sheets[k..][1..] == sheets[k + 1..];
    assert SheetsOutcome(config, sheets[k..], mmdd, parse, rejects, cleaned) == Then(o, rest);
    ThenAssociative(Outcome(done, None), o, rest);
  }

  /** Lines 92-166: one pass of the sheet loop. */
  method ImportSheet(db: Database, config: ColumnMapping, sheet: Sheet, mmdd: string, parse: string -> Option<real>, cleaned: bool)
    returns (r: Result<(), Error>, next: bool)
    modifies db
    ensures next == NextCleaned(sheet, cleaned)
    ensures db.log == old(db.log) + SheetOutcome(config, sheet, mmdd, parse, db.rejects, cleaned).log
    ensures Reports(r, SheetOutcome(config, sheet, mmdd, parse, db.rejects, cleaned))
  {
    var key := ToUpper(sheet.name);
    if key == Mth || key == Mat {
      r := ImportPeriod(db, config, sheet, mmdd, parse, cleaned);
      next := true;
    } else if key == DailyDosageSheet {
      r := ImportDailyDosageToDB(db, config.dailyColumns, sheet, parse);
      next := cleaned;
    } else {
      LogRegroup(db.log, [], []);
      r := Success(());
      next := cleaned;
    }
  }

  /** Lines 106-166, with the clearing of lines 100-104 first unless an earlier period sheet
      did it. */
  method ImportPeriod(db: Database, config: ColumnMapping, sheet: Sheet, mmdd: string, parse: string -> Option<real>, cleaned: bool)
    returns (r: Result<(), Error>)
    modifies db
    ensures db.log == old(db.log) + Then(CleanOutcome(cleaned, db.rejects), PeriodOutcome(config, sheet, mmdd, parse, db.rejects)).log
    ensures Reports(r, Then(CleanOutcome(cleaned, db.rejects), PeriodOutcome(config, sheet, mmdd, parse, db.rejects)))
  {
    ghost var before := db.log;
    if !cleaned {
      var ok := ClearTempData(db);
      if !ok {
        LogRegroup(before, [], []);
        return Failure(StoreFailure);
      }
    }
    ghost var clean := CleanOutcome(cleaned, db.rejects);
    LogRegroup(before, clean.log, []);
    r := ImportPeriodSheet(db, config, sheet, mmdd, parse);
    LogRegroup(before, clean.log, PeriodOutcome(config, sheet, mmdd, parse, db.rejects).log);
  }

  /** Lines 276-279: the `usp_cleanBizTable` procedure. */
  method ClearTempData(db: Database) returns (ok: bool)
    modifies db
    ensures ok == !db.rejects(CallProcedure(CleanProcedure))
    ensures db.log == if ok then old(db.log) + [CallProcedure(CleanProcedure)] else old(db.log)
  {
    ok := db.Apply(CallProcedure(CleanProcedure));
  }

  /** Lines 106-166: the range section of the sheet's period. */
  method ImportPeriodSheet(db: Database, config: ColumnMapping, sheet: Sheet, mmdd: string, parse: string -> Option<real>)
    returns (r: Result<(), Error>)
    modifies db
    ensures db.log == old(db.log) + PeriodOutcome(config, sheet, mmdd, parse, db.rejects).log
    ensures Reports(r, PeriodOutcome(config, sheet, mmdd, parse, db.rejects))
  {
    var key := ToUpper(sheet.name);
    if key !in config.periodRanges {
      assert db.log == db.log + [];
      return Failure(MissingPeriodRange(key));
    }
    r := ImportRange(db, config.inputColumns, sheet, config.periodRanges[key], mmdd, parse);
  }

  /** Lines 108-138: the derived names and the in-memory table. */
  method ImportRange(db: Database, inputs: seq<InputColumn>, sheet: Sheet, range: PeriodRange, mmdd: string, parse: string -> Option<real>)
    returns (r: Result<(), Error>)
    modifies db
    ensures db.log == old(db.log) + RangeOutcome(inputs, sheet, range, mmdd, parse, db.rejects).log
    ensures Reports(r, RangeOutcome(inputs, sheet, range, mmdd, parse, db.rejects))
  {
    assert db.log == db.log + [];
    var dateCols := CollectDateColumns(sheet, range);
    if dateCols.Failure? {
      return Failure(dateCols.error);
    }
    var table := CreateMemoryDataTable(inputs, dateCols.value);
    if table.Failure? {
      return Failure(table.error);
    }
    r := FillAndStore(db, table.value, inputs, sheet, dateCols.value, mmdd, parse);
  }

  /** Lines 141-166: the rows of the in-memory table, then the destination table. */
  method FillAndStore(db: Database, dt: DataTable, inputs: seq<InputColumn>, sheet: Sheet, dateCols: seq<string>, mmdd: string, parse: string -> Option<real>)
    returns (r: Result<(), Error>)
    requires dt.columns == MemorySchema(inputs, dateCols) && dt.rows == []
    modifies db, dt
    ensures db.log == old(db.log) + FillOutcome(inputs, sheet, dateCols, mmdd, parse, db.rejects).log
    ensures Reports(r, FillOutcome(inputs, sheet, dateCols, mmdd, parse, db.rejects))
  {
    var err := FillRows(dt, sheet, parse);
    if err.Some? {
      assert db.log == db.log + [];
      return Failure(err.value);
    }
    assert dt.Snapshot() == Table(MemorySchema(inputs, dateCols), FillSheet(sheet, MemorySchema(inputs, dateCols), parse).rows);
    r := StoreTable(db, dt, inputs, dateCols, sheet.name, mmdd);
  }

  /** Lines 160-166. */
  method StoreTable(db: Database, dt: DataTable, inputs: seq<InputColumn>, dateCols: seq<string>, periodName: string, mmdd: string)
    returns (r: Result<(), Error>)
    modifies db
    ensures db.log == old(db.log) + StoreOutcome(inputs, dateCols, TableName(periodName, mmdd), dt.Snapshot(), db.rejects).log
    ensures Reports(r, StoreOutcome(inputs, dateCols, TableName(periodName, mmdd), dt.Snapshot(), db.rejects))
  {
    if |dt.rows| > 0 {
      var created := CreateDBTable(db, periodName, inputs, dateCols, mmdd);
      if created.Failure? {
        assert db.log == old(db.log) + [];
        return Failure(created.error);
      }
      var ok := db.Apply(BulkInsert(created.value, dt.Snapshot()));
      if !ok {
        return Failure(StoreFailure);
      }
    } else {
      assert db.log == db.log + [];
    }
    r := Success(());
  }
}
