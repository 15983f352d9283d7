/** The column mapping file, already parsed: the `InputColumns` section, one range section per
    period code, and the `DailyDosageColumns` section, each in the order of the file. */
module Config {
  import opened Wrappers
  import opened Tables

  /** An `InputColumns` property: its name, its `Type` text and whether it has a `PrimaryKey`
      property. */
  datatype InputColumn = InputColumn(name: string, sqlType: string, primaryKey: bool)

  /** A period range section: the six column references and `DateLengh`, the number of trailing
      header characters a derived column name keeps. */
  datatype PeriodRange = PeriodRange(
    valueStart: string, valueEnd: string,
    ptdStart: string, ptdEnd: string,
    volumeStart: string, volumeEnd: string,
    dateLength: nat)

  /** A `DailyDosageColumns` property: its name and, when its value is an object, the kind its
      `CLRType` names; a property with a plain value is a text column. */
  datatype DailyColumn = DailyColumn(name: string, declared: Option<Kind>)

  datatype ColumnMapping = ColumnMapping(
    inputColumns: seq<InputColumn>,
    periodRanges: map<string, PeriodRange>,
    dailyColumns: seq<DailyColumn>)
}
