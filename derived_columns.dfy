/** The derived date columns of a period sheet: for each of the value, period-to-date and volume
    ranges of the sheet's range section, one name per column of the range, made from the
    trailing characters of that column's header. */
module DerivedColumns {
  import opened Wrappers
  import opened Text
  import opened Errors
  import opened Workbook
  import opened Config
  import opened ColumnAddressing

  const ValuePrefix: string := "VAL_"
  const PtdPrefix: string := "PTD_"
  const VolumePrefix: string := "VOL_"

  /** The column numbers of a range section, as `GetColumnIndex` computes them. */
  datatype Bounds = Bounds(
    valueStart: int, valueEnd: int,
    ptdStart: int, ptdEnd: int,
    volumeStart: int, volumeEnd: int)

  /** The six references resolved in the order the source reads them; the first that
      overflows aborts. */
  function ResolvedBounds(range: PeriodRange): Result<Bounds, Error> {
    var vs :- ColumnIndex(range.valueStart);
    var ve :- ColumnIndex(range.valueEnd);
    var ps :- ColumnIndex(range.ptdStart);
    var pe :- ColumnIndex(range.ptdEnd);
    var os :- ColumnIndex(range.volumeStart);
    var oe :- ColumnIndex(range.volumeEnd);
    Success(Bounds(vs, ve, ps, pe, os, oe))
  }

  /** `prefix + header.Right(length).Replace("/", "_")`. */
  function DerivedName(prefix: string, header: string, length: nat): string {
    prefix + ReplaceSlash(Right(header, length))
  }

  /** A derived name is the prefix followed by the last `length` characters of the header (all of
      it when shorter), with every `/` turned into `_`; so no `/` follows the prefix. */
  lemma DerivedNameForm(prefix: string, header: string, length: nat)
    ensures var name := DerivedName(prefix, header, length);
      |name| == |prefix| + (if length < |header| then length else |header|)
      && name[..|prefix|] == prefix
      && (forall k :: |prefix| <= k < |name| ==> name[k] != '/')
      && (forall k :: |prefix| <= k < |name| ==>
            name[k] == (var ch := header[|header| - |name| + k]; if ch == '/' then '_' else ch))
  {
    var name := DerivedName(prefix, header, length);
    var tail := Right(header, length);
    RightMeaning(header, length);
    ReplaceSlashMeaning(tail);
    assert forall k :: |prefix| <= k < |name| ==> name[k] == ReplaceSlash(tail)[k - |prefix|];
  }

  /** How many times `for (var i = start; i <= end; i++)` runs. */
  function Span(start: int, end: int): nat {
    if end < start then 0 else end - start + 1
  }

  /** The names one range loop adds, or the error of the first header cell it cannot read. */
  function RangeNames(sheet: Sheet, prefix: string, start: int, end: int, length: nat): Result<seq<string>, Error>
    decreases Span(start, end)
  {
    if start > end then Success([])
    else
      var header :- HeaderText(sheet, start);
      var rest :- RangeNames(sheet, prefix, start + 1, end, length);
      Success([DerivedName(prefix, header, length)] + rest)
  }

  /** The derived columns of a sheet: value names, then period-to-date names, then volume names. */
  function DateColumns(sheet: Sheet, range: PeriodRange): Result<seq<string>, Error> {
    var b :- ResolvedBounds(range);
    BoundedDateColumns(sheet, b, range.dateLength)
  }

  /** The three range loops, once the column numbers are known. */
  function BoundedDateColumns(sheet: Sheet, b: Bounds, length: nat): Result<seq<string>, Error> {
    var values :- RangeNames(sheet, ValuePrefix, b.valueStart, b.valueEnd, length);
    var ptds :- RangeNames(sheet, PtdPrefix, b.ptdStart, b.ptdEnd, length);
    var volumes :- RangeNames(sheet, VolumePrefix, b.volumeStart, b.volumeEnd, length);
    Success(values + ptds + volumes)
  }

  // ---------------------------------------------------------------------------
  // The loops of lines 106-134.

  /** One range loop: appends a derived name per column from `start` to `end` to `dateCols`. */
  method AppendRange(dateCols: seq<string>, sheet: Sheet, prefix: string, start: int, end: int, length: nat)
    returns (r: Result<seq<string>, Error>)
    ensures r == Prepend(dateCols, RangeNames(sheet, prefix, start, end, length))
  {
    var acc := dateCols;
    var i := start;
    while i <= end
      invariant Prepend(dateCols, RangeNames(sheet, prefix, start, end, length))
             == Prepend(acc, RangeNames(sheet, prefix, i, end, length))
      decreases Span(i, end)
    {
      var header := HeaderText(sheet, i);
      if header.Failure? {
        assert RangeNames(sheet, prefix, i, end, length) == Failure(header.error);
        return Failure(header.error);
      }
      var name := DerivedName(prefix, header.value, length);
      PrependStep(acc, name, sheet, prefix, i, end, length);
      acc := acc + [name];
      i := i + 1;
    }
    assert acc + [] == acc;
    r := Success(acc);
  }

  /** Reading the header of column `i` successfully moves its name from the loop's remaining
      work to the accumulated list. */
  lemma PrependStep(acc: seq<string>, name: string, sheet: Sheet, prefix: string, i: int, end: int, length: nat)
    requires i <= end && HeaderText(sheet, i).Success?
    requires name == DerivedName(prefix, HeaderText(sheet, i).value, length)
    ensures Prepend(acc, RangeNames(sheet, prefix, i, end, length))
         == Prepend(acc + [name], RangeNames(sheet, prefix, i + 1, end, length))
  {
    var rest := RangeNames(sheet, prefix, i + 1, end, length);
    if rest.Success? {
      assert acc + ([name] + rest.value) == acc + [name] + rest.value;
    }
  }

  /** The six `GetColumnIndex` calls of lines 111-116. */
  method ResolveBounds(range: PeriodRange) returns (r: Result<Bounds, Error>)
    ensures r == ResolvedBounds(range)
  {
    var vs :- GetColumnIndex(range.valueStart);
    var ve :- GetColumnIndex(range.valueEnd);
    var ps :- GetColumnIndex(range.ptdStart);
    var pe :- GetColumnIndex(range.ptdEnd);
    var os :- GetColumnIndex(range.volumeStart);
    var oe :- GetColumnIndex(range.volumeEnd);
    r := Success(Bounds(vs, ve, ps, pe, os, oe));
  }

  /** Lines 106-134: the column numbers of the range section, then the three range loops. */
  method CollectDateColumns(sheet: Sheet, range: PeriodRange) returns (r: Result<seq<string>, Error>)
    ensures r == DateColumns(sheet, range)
  {
    var b :- ResolveBounds(range);
    r := AppendRanges(sheet, b, range.dateLength);
  }

  /** The three range loops appending to one `dateCols` list. */
  method AppendRanges(sheet: Sheet, b: Bounds, length: nat) returns (r: Result<seq<string>, Error>)
    ensures r == BoundedDateColumns(sheet, b, length)
  {
    var dateCols: seq<string> := [];
    dateCols :- AppendRange(dateCols, sheet, ValuePrefix, b.valueStart, b.valueEnd, length);
    ghost var values := dateCols;
    assert values == RangeNames(sheet, ValuePrefix, b.valueStart, b.valueEnd, length).value;
    dateCols :- AppendRange(dateCols, sheet, PtdPrefix, b.ptdStart, b.ptdEnd, length);
    ghost var ptds := RangeNames(sheet, PtdPrefix, b.ptdStart, b.ptdEnd, length).value;
    assert dateCols == values + ptds;
    dateCols :- AppendRange(dateCols, sheet, VolumePrefix, b.volumeStart, b.volumeEnd, length);
    r := Success(dateCols);
  }

  // ---------------------------------------------------------------------------
  // Properties of the derived columns.

  /** A range yields names exactly when every header from `start` to `end` can be read. */
  lemma {:induction false} RangeNamesSucceeds(sheet: Sheet, prefix: string, start: int, end: int, length: nat)
    ensures RangeNames(sheet, prefix, start, end, length).Success?
        <==> forall c :: start <= c <= end ==> HeaderText(sheet, c).Success?
    decreases Span(start, end)
  {
    if start <= end {
      RangeNamesSucceeds(sheet, prefix, start + 1, end, length);
    }
  }

  /** A successful range holds one name per column of the range ... */
  lemma {:induction false} RangeNamesLength(sheet: Sheet, prefix: string, start: int, end: int, length: nat)
    requires RangeNames(sheet, prefix, start, end, length).Success?
    ensures |RangeNames(sheet, prefix, start, end, length).value| == Span(start, end)
    decreases Span(start, end)
  {
    if start <= end {
      RangeNamesLength(sheet, prefix, start + 1, end, length);
    }
  }

  /** ... and the name at position `c - start` is made from the header of column `c`. */
  lemma {:induction false} RangeNamesEntry(sheet: Sheet, prefix: string, start: int, end: int, length: nat, c: int)
    requires RangeNames(sheet, prefix, start, end, length).Success? && start <= c <= end
    ensures HeaderText(sheet, c).Success?
    ensures |RangeNames(sheet, prefix, start, end, length).value| > c - start
    ensures RangeNames(sheet, prefix, start, end, length).value[c - start]
         == DerivedName(prefix, HeaderText(sheet, c).value, length)
    decreases c - start
  {
    RangeNamesUnfold(sheet, prefix, start, end, length);
    var names := RangeNames(sheet, prefix, start, end, length).value;
    var first := DerivedName(prefix, HeaderText(sheet, start).value, length);
    var tail := RangeNames(sheet, prefix, start + 1, end, length).value;
    if c == start {
      ConsEntry(names, first, tail, 0, first);
    } else {
      RangeNamesEntry(sheet, prefix, start + 1, end, length, c);
      ConsEntry(names, first, tail, c - start, DerivedName(prefix, HeaderText(sheet, c).value, length));
    }
  }

  /** In `[x] + t`, position 0 holds `x` and every later position `k` holds `t[k - 1]`. */
  lemma ConsEntry<T>(s: seq<T>, x: T, t: seq<T>, k: nat, y: T)
    requires s == [x] + t && k <= |t|
    requires if k == 0 then y == x else t[k - 1] == y
    ensures |s| > k && s[k] == y
  {
  }

  /** A successful non-empty range is the name of its first column followed by the rest. */
  lemma RangeNamesUnfold(sheet: Sheet, prefix: string, start: int, end: int, length: nat)
    requires start <= end && RangeNames(sheet, prefix, start, end, length).Success?
    ensures HeaderText(sheet, start).Success?
    ensures RangeNames(sheet, prefix, start + 1, end, length).Success?
    ensures RangeNames(sheet, prefix, start, end, length).value
         == [DerivedName(prefix, HeaderText(sheet, start).value, length)]
          + RangeNames(sheet, prefix, start + 1, end, length).value
  {
  }

  /** A range that fails reports the first column, in ascending order, whose header cannot be
      read. */
  lemma {:induction false} RangeNamesFailsAt(sheet: Sheet, prefix: string, start: int, end: int, length: nat, c: int)
    requires start <= c <= end && HeaderText(sheet, c).Failure?
    requires forall c' :: start <= c' < c ==> HeaderText(sheet, c').Success?
    ensures RangeNames(sheet, prefix, start, end, length) == Failure(HeaderText(sheet, c).error)
    decreases c - start
  {
    if start < c {
      RangeNamesFailsAt(sheet, prefix, start + 1, end, length, c);
    }
  }

  /** The derived list is the value names, then the period-to-date names, then the volume
      names, one per column of each range. */
  lemma DateColumnsShape(sheet: Sheet, range: PeriodRange, b: Bounds)
    requires ResolvedBounds(range) == Success(b) && DateColumns(sheet, range).Success?
    ensures RangeNames(sheet, ValuePrefix, b.valueStart, b.valueEnd, range.dateLength).Success?
    ensures RangeNames(sheet, PtdPrefix, b.ptdStart, b.ptdEnd, range.dateLength).Success?
    ensures RangeNames(sheet, VolumePrefix, b.volumeStart, b.volumeEnd, range.dateLength).Success?
    ensures DateColumns(sheet, range).value
         == RangeNames(sheet, ValuePrefix, b.valueStart, b.valueEnd, range.dateLength).value
          + RangeNames(sheet, PtdPrefix, b.ptdStart, b.ptdEnd, range.dateLength).value
          + RangeNames(sheet, VolumePrefix, b.volumeStart, b.volumeEnd, range.dateLength).value
    ensures |DateColumns(sheet, range).value|
         == Span(b.valueStart, b.valueEnd) + Span(b.ptdStart, b.ptdEnd) + Span(b.volumeStart, b.volumeEnd)
  {
    RangeNamesLength(sheet, ValuePrefix, b.valueStart, b.valueEnd, range.dateLength);
    RangeNamesLength(sheet, PtdPrefix, b.ptdStart, b.ptdEnd, range.dateLength);
    RangeNamesLength(sheet, VolumePrefix, b.volumeStart, b.volumeEnd, range.dateLength);
  }

  /** The header "12/31/2023" gives "VAL_31_2023" with `DateLengh` 7 and "VAL__31_2023" with 8. */
  lemma SampleNames()
    ensures DerivedName(ValuePrefix, "12/31/2023", 7) == "VAL_31_2023"
    ensures DerivedName(ValuePrefix, "12/31/2023", 8) == "VAL__31_2023"
  {
    SampleTails();
  }

  /** The part of the sample names after the prefix. */
  lemma SampleTails()
    ensures ReplaceSlash(Right("12/31/2023", 7)) == "31_2023"
    ensures ReplaceSlash(Right("12/31/2023", 8)) == "_31_2023"
  {
    assert Right("12/31/2023", 7) == "31/2023";
    assert Right("12/31/2023", 8) == "/31/2023";
    assert ReplaceSlash("31/2023") == "31_2023";
    assert ReplaceSlash("/31/2023") == "_31_2023";
  }
}
