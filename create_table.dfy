/** `CreateDBTable` (lines 247-271 of DosageExcel.cs): the destination table of a period sheet,
    named after the sheet and the day, created by one `create table` statement. */
module CreateTable {
  import opened Wrappers
  import opened Errors
  import opened Text
  import opened Config
  import opened Store

  /** `Environment.NewLine` on the Windows server the importer runs on. */
  const NewLine: string := "\r\n"

  /** `"BIZ_" + periodName + DateTime.Now.ToString("MMdd")`, the day passed in as `mmdd`. */
  function TableName(periodName: string, mmdd: string): string {
    "BIZ_" + periodName + mmdd
  }

  /** The text appended for an input column: its name and `Type`, marked as an identity column
      when it has `PrimaryKey`. */
  function InputClause(c: InputColumn): string {
    " " + NewLine + c.name + " " + c.sqlType + (if c.primaryKey then " identity(1,1)" else "")
  }

  /** The text appended for a derived column. */
  function DateClause(d: string): string {
    NewLine + " " + d + " decimal(38,10)"
  }

  /** One clause per input column, primary keys included, in configuration order. A definition:
      its ensures only spell out the body; `ClauseListed` states what the clauses mean. */
  function InputClauses(inputs: seq<InputColumn>): (cs: seq<string>)
    ensures |cs| == |inputs| && forall k :: 0 <= k < |inputs| ==> cs[k] == InputClause(inputs[k])
  {
    seq(|inputs|, k requires 0 <= k < |inputs| => InputClause(inputs[k]))
  }

  /** One clause per derived column, in list order. A definition: its ensures only spell out
      the body; `ClauseListed` states what the clauses mean. */
  function DateClauses(dateCols: seq<string>): (cs: seq<string>)
    ensures |cs| == |dateCols| && forall k :: 0 <= k < |dateCols| ==> cs[k] == DateClause(dateCols[k])
  {
    seq(|dateCols|, k requires 0 <= k < |dateCols| => DateClause(dateCols[k]))
  }

  function Clauses(inputs: seq<InputColumn>, dateCols: seq<string>): seq<string> {
    InputClauses(inputs) + DateClauses(dateCols)
  }

  function Header(table: string): string {
    "create table " + table + "(" + NewLine
  }

  /** The statement: the header, the clauses separated by commas, and a closing parenthesis.
      Without any clause, removing "the trailing comma" removes the header's last character. */
  function CreateTableSql(table: string, inputs: seq<InputColumn>, dateCols: seq<string>): string {
    var cs := Clauses(inputs, dateCols);
    if cs == [] then Header(table)[..|Header(table)| - 1] + ")"
    else Header(table) + Join(cs, ",") + ")"
  }

  /** Every part followed by the separator: what the builder holds before the last comma is removed. */
  function Terminated(parts: seq<string>, sep: string): string
    decreases |parts|
  {
    if parts == [] then "" else parts[0] + sep + Terminated(parts[1..], sep)
  }

  // ---------------------------------------------------------------------------

  /** Lines 250-268: the `StringBuilder` of the statement, with its trailing character removed. */
  method BuildCreateTableSql(table: string, inputs: seq<InputColumn>, dateCols: seq<string>)
    returns (sql: string)
    ensures sql == CreateTableSql(table, inputs, dateCols)
  {
    var sb := Header(table);
    sb := AppendInputClauses(sb, inputs);
    sb := AppendDateClauses(sb, dateCols);
    ghost var cs := Clauses(inputs, dateCols);
    TerminatedConcat(InputClauses(inputs), DateClauses(dateCols), ",");
    assert sb == Header(table) + Terminated(cs, ",");
    sql := RemoveLastAndClose(Header(table), cs, sb);
  }

  /** Lines 252-261: the input columns' clauses, each followed by a comma. */
  method AppendInputClauses(sb: string, inputs: seq<InputColumn>) returns (out: string)
    ensures out == sb + Terminated(InputClauses(inputs), ",")
  {
    out := sb;
    var k := 0;
    while k < |inputs|
      invariant 0 <= k <= |inputs|
      invariant out == sb + Terminated(InputClauses(inputs)[..k], ",")
    {
      ghost var done := InputClauses(inputs)[..k];
      var clause := InputClause(inputs[k]);
      TerminatedAppend(done, clause, ",");
      assert InputClauses(inputs)[..k + 1] == done + [clause];
      out := out + clause + ",";
      k := k + 1;
    }
    assert InputClauses(inputs)[..k] == InputClauses(inputs);
  }

  /** Lines 263-266: the derived columns' clauses, each followed by a comma. */
  method AppendDateClauses(sb: string, dateCols: seq<string>) returns (out: string)
    ensures out == sb + Terminated(DateClauses(dateCols), ",")
  {
    out := sb;
    var k := 0;
    while k < |dateCols|
      invariant 0 <= k <= |dateCols|
      invariant out == sb + Terminated(DateClauses(dateCols)[..k], ",")
    {
      ghost var done := DateClauses(dateCols)[..k];
      var clause := DateClause(dateCols[k]);
      TerminatedAppend(done, clause, ",");
      assert DateClauses(dateCols)[..k + 1] == done + [clause];
      out := out + clause + ",";
      k := k + 1;
    }
    assert DateClauses(dateCols)[..k] == DateClauses(dateCols);
  }

  /** Lines 267-268: `Remove(Length - 1, 1)`, then `Append(")")`. */
  method RemoveLastAndClose(header: string, ghost cs: seq<string>, sb: string) returns (sql: string)
    requires header != [] && sb == header + Terminated(cs, ",")
    ensures cs == [] ==> sql == header[..|header| - 1] + ")"
    ensures cs != [] ==> sql == header + Join(cs, ",") + ")"
  {
    if cs != [] {
      TerminatedJoin(cs, ",");
      assert sb == (header + Join(cs, ",")) + ",";
    } else {
      assert sb == header;
    }
    sql := sb[..|sb| - 1] + ")";
  }

  /** Lines 247-270: the statement sent to the store; the table's name is the result. */
  method CreateDBTable(db: Database, periodName: string, inputs: seq<InputColumn>, dateCols: seq<string>, mmdd: string)
    returns (r: Result<string, Error>)
    modifies db
    ensures var a := Execute(CreateTableSql(TableName(periodName, mmdd), inputs, dateCols));
      && (r.Success? <==> !db.rejects(a))
      && (r.Success? ==> r.value == TableName(periodName, mmdd))
      && (r.Failure? ==> r.error == StoreFailure)
      && db.log == if r.Success? then old(db.log) + [a] else old(db.log)
  {
    var tableName := TableName(periodName, mmdd);
    var sql := BuildCreateTableSql(tableName, inputs, dateCols);
    var ok := db.Apply(Execute(sql));
    if !ok {
      return Failure(StoreFailure);
    }
    r := Success(tableName);
  }

  // ---------------------------------------------------------------------------
  // Properties of the statement.

  lemma {:induction false} TerminatedAppend(parts: seq<string>, p: string, sep: string)
    ensures Terminated(parts + [p], sep) == Terminated(parts, sep) + p + sep
    decreases |parts|
  {
    if parts == [] {
      assert [] + [p] == [p];
      assert [p][1..] == [];
    } else {
      assert (parts + [p])[1..] == parts[1..] + [p];
      TerminatedAppend(parts[1..], p, sep);
    }
  }

  lemma {:induction false} TerminatedConcat(a: seq<string>, b: seq<string>, sep: string)
    ensures Terminated(a + b, sep) == Terminated(a, sep) + Terminated(b, sep)
    decreases |a|
  {
    if a == [] {
      assert a + b == b;
    } else {
      assert (a + b)[1..] == a[1..] + b;
      TerminatedConcat(a[1..], b, sep);
    }
  }

  /** The builder's text is the comma-separated list plus one trailing comma. */
  lemma {:induction false} TerminatedJoin(parts: seq<string>, sep: string)
    requires parts != []
    ensures Terminated(parts, sep) == Join(parts, sep) + sep
    decreases |parts|
  {
    if |parts| > 1 {
      TerminatedJoin(parts[1..], sep);
    } else {
      assert parts[1..] == [];
    }
  }

  /** A joined list ends with its last part. */
  lemma {:induction false} JoinEndsWithLast(parts: seq<string>, sep: string)
    requires parts != []
    ensures EndsWith(Join(parts, sep), parts[|parts| - 1])
    decreases |parts|
  {
    if |parts| > 1 {
      JoinEndsWithLast(parts[1..], sep);
      EndsWithAfter(parts[0] + sep, Join(parts[1..], sep), parts[|parts| - 1]);
    }
  }

  /** With at least one column the statement ends with its last clause and then `)`: the
      trailing comma is gone. */
  lemma LastClauseCloses(table: string, inputs: seq<InputColumn>, dateCols: seq<string>)
    requires |inputs| + |dateCols| > 0
    ensures var cs := Clauses(inputs, dateCols);
      EndsWith(CreateTableSql(table, inputs, dateCols), cs[|cs| - 1] + ")")
  {
    var cs := Clauses(inputs, dateCols);
    JoinEndsWithLast(cs, ",");
    EndsWithBoth(Header(table) + Join(cs, ","), cs[|cs| - 1], ")");
  }

  /** The last clause of a sheet with derived columns is that of the last derived name, so the
      statement closes with `decimal(38,10))`. */
  lemma DateColumnLast(table: string, inputs: seq<InputColumn>, dateCols: seq<string>)
    requires dateCols != []
    ensures EndsWith(CreateTableSql(table, inputs, dateCols), " decimal(38,10))")
  {
    LastClauseCloses(table, inputs, dateCols);
    var d := dateCols[|dateCols| - 1];
    var cs := Clauses(inputs, dateCols);
    assert cs[|cs| - 1] == DateClause(d);
    EndsWithAfter(NewLine + " " + d, " decimal(38,10))", " decimal(38,10))");
    assert DateClause(d) + ")" == (NewLine + " " + d) + " decimal(38,10))";
    EndsWithTransitive(CreateTableSql(table, inputs, dateCols), DateClause(d) + ")", " decimal(38,10))");
  }

  /** A primary-key column last (no derived column): the statement closes with `identity(1,1))`. */
  lemma KeyColumnLast(table: string, inputs: seq<InputColumn>)
    requires inputs != [] && inputs[|inputs| - 1].primaryKey
    ensures EndsWith(CreateTableSql(table, inputs, []), " identity(1,1))")
  {
    LastClauseCloses(table, inputs, []);
    var c := inputs[|inputs| - 1];
    var cs := Clauses(inputs, []);
    assert cs[|cs| - 1] == InputClause(c);
    EndsWithAfter(" " + NewLine + c.name + " " + c.sqlType, " identity(1,1))", " identity(1,1))");
    assert InputClause(c) + ")" == (" " + NewLine + c.name + " " + c.sqlType) + " identity(1,1))";
    EndsWithTransitive(CreateTableSql(table, inputs, []), InputClause(c) + ")", " identity(1,1))");
  }

  /** With no column at all the statement loses its line feed instead of a comma. */
  lemma NoColumns(table: string)
    ensures CreateTableSql(table, [], []) == "create table " + table + "(\r)"
  {
    assert Header(table)[..|Header(table)| - 1] == "create table " + table + "(\r";
  }

  /** Every column of the statement, primary keys included, in order: the `k`-th clause is that
      of the `k`-th input column (its name, its configured type and, exactly for a primary key,
      `identity(1,1)`), then those of the derived names with `decimal(38,10)`; the clauses before
      it come first, a comma separates neighbours, and the last clause is followed by the
      closing parenthesis. */
  lemma ClauseListed(table: string, inputs: seq<InputColumn>, dateCols: seq<string>, k: nat)
    requires k < |inputs| + |dateCols|
    ensures var cs := Clauses(inputs, dateCols);
      |cs| == |inputs| + |dateCols|
      && cs[k] == (if k < |inputs| then InputClause(inputs[k]) else DateClause(dateCols[k - |inputs|]))
      && CreateTableSql(table, inputs, dateCols)
         == Header(table)
            + (if k == 0 then "" else Join(cs[..k], ",") + ",")
            + cs[k]
            + (if k + 1 < |cs| then "," + Join(cs[k + 1..], ",") else "")
            + ")"
  {
    var cs := Clauses(inputs, dateCols);
    StatementOfClauses(table, inputs, dateCols);
    JoinAroundWithin(Header(table), cs, ",", ")", k);
  }

  lemma StatementOfClauses(table: string, inputs: seq<InputColumn>, dateCols: seq<string>)
    requires |inputs| + |dateCols| > 0
    ensures CreateTableSql(table, inputs, dateCols) == Header(table) + Join(Clauses(inputs, dateCols), ",") + ")"
  {
  }

  /** The table name determines the period name, given the day's four characters. */
  lemma TableNameInjective(p1: string, m1: string, p2: string, m2: string)
    requires |m1| == 4 && |m2| == 4 && TableName(p1, m1) == TableName(p2, m2)
    ensures p1 == p2 && m1 == m2
  {
    var n := TableName(p1, m1);
    assert p1 == n[4..|n| - 4] && p2 == n[4..|n| - 4];
    assert m1 == n[|n| - 4..] && m2 == n[|n| - 4..];
  }

  /** A sheet with one input column and one derived column: both clauses, one comma between them. */
  lemma TwoColumns(table: string, c: InputColumn, d: string)
    ensures CreateTableSql(table, [c], [d]) == Header(table) + InputClause(c) + "," + DateClause(d) + ")"
  {
    var cs := Clauses([c], [d]);
    assert cs == [InputClause(c), DateClause(d)];
    assert cs[1..] == [DateClause(d)];
    assert Join(cs, ",") == InputClause(c) + "," + DateClause(d);
    assert Header(table) + Join(cs, ",") + ")" == Header(table) + InputClause(c) + "," + DateClause(d) + ")";
  }
}
