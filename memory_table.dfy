/** `CreateMemoryDataTable`: the in-memory table of a period sheet, holding the configured input
    columns that are not primary keys, as text, then the derived date columns, as decimals. */
module MemoryTable {
  import opened Wrappers
  import opened Errors
  import opened Tables
  import opened Config

  /** The text columns: every input column without `PrimaryKey`, in configuration order. */
  function TextColumns(inputs: seq<InputColumn>): seq<Column>
    decreases |inputs|
  {
    if inputs == [] then []
    else (if inputs[0].primaryKey then [] else [Column(inputs[0].name, Text)]) + TextColumns(inputs[1..])
  }

  /** The decimal columns: one per derived name, in list order. A definition: its ensures only
      spell out the body; `MemorySchemaKinds` states the schema. */
  function DecimalColumns(dateCols: seq<string>): (cols: seq<Column>)
    ensures |cols| == |dateCols|
    ensures forall k :: 0 <= k < |dateCols| ==> cols[k] == Column(dateCols[k], Decimal)
  {
    seq(|dateCols|, k requires 0 <= k < |dateCols| => Column(dateCols[k], Decimal))
  }

  /** The columns in the order `CreateMemoryDataTable` adds them. */
  function MemorySchema(inputs: seq<InputColumn>, dateCols: seq<string>): seq<Column> {
    TextColumns(inputs) + DecimalColumns(dateCols)
  }

  /** The number of input columns without `PrimaryKey`. */
  function NonKeyCount(inputs: seq<InputColumn>): nat
    decreases |inputs|
  {
    if inputs == [] then 0 else (if inputs[0].primaryKey then 0 else 1) + NonKeyCount(inputs[1..])
  }

  // ---------------------------------------------------------------------------

  /** Lines 281-300: a new table, a text column per non-key input column, then a decimal
      column per derived name; the first name already taken aborts. */
  method CreateMemoryDataTable(inputs: seq<InputColumn>, dateCols: seq<string>)
    returns (r: Result<DataTable, Error>)
    ensures r.Success? <==> AddColumns([], MemorySchema(inputs, dateCols)).Success?
    ensures r.Success? <==> DistinctNames(MemorySchema(inputs, dateCols))
    ensures r.Failure? ==> r.error == AddColumns([], MemorySchema(inputs, dateCols)).error
    ensures r.Success? ==>
      fresh(r.value) && r.value.columns == MemorySchema(inputs, dateCols) && r.value.rows == []
  {
    var dt := new DataTable();
    assert [] + MemorySchema(inputs, dateCols) == MemorySchema(inputs, dateCols);
    AddColumnsSucceeds([], MemorySchema(inputs, dateCols));
    AddColumnsValue([], MemorySchema(inputs, dateCols));
    AddColumnsAppend([], TextColumns(inputs), DecimalColumns(dateCols));
    var text := AddTextColumns(dt, inputs);
    if text.Failure? {
      return Failure(text.error);
    }
    var decimals := AddDecimalColumns(dt, dateCols);
    if decimals.Failure? {
      return Failure(decimals.error);
    }
    r := Success(dt);
  }

  /** The first loop of `CreateMemoryDataTable`: a text column per non-key input column. */
  method AddTextColumns(dt: DataTable, inputs: seq<InputColumn>) returns (r: Result<(), Error>)
    requires dt.rows == []
    modifies dt
    ensures dt.rows == []
    ensures r.Success? <==> AddColumns(old(dt.columns), TextColumns(inputs)).Success?
    ensures r.Failure? ==> r.error == AddColumns(old(dt.columns), TextColumns(inputs)).error
    ensures r.Success? ==> AddColumns(old(dt.columns), TextColumns(inputs)) == Success(dt.columns)
  {
    ghost var goal := AddColumns(dt.columns, TextColumns(inputs));
    var i := 0;
    while i < |inputs|
      invariant 0 <= i <= |inputs| && dt.rows == []
      invariant goal == AddColumns(dt.columns, TextColumns(inputs[i..]))
    {
      assert inputs[i..][0] == inputs[i] && inputs[i..][1..] == inputs[i + 1..];
      if inputs[i].primaryKey {
        assert TextColumns(inputs[i..]) == [] + TextColumns(inputs[i + 1..]);
        assert TextColumns(inputs[i..]) == TextColumns(inputs[i + 1..]);
      } else {
        var c := Column(inputs[i].name, Text);
        ghost var pending := TextColumns(inputs[i..]);
        assert pending[0] == c && pending[1..] == TextColumns(inputs[i + 1..]);
        ghost var before := dt.columns;
        var added := dt.AddColumn(c);
        if added.Failure? {
          return Failure(added.error);
        }
        AddColumnsStep(before, pending);
      }
      i := i + 1;
    }
    assert inputs[i..] == [];
    r := Success(());
  }

  /** The second loop of `CreateMemoryDataTable`: a decimal column per derived name. */
  method AddDecimalColumns(dt: DataTable, dateCols: seq<string>) returns (r: Result<(), Error>)
    requires dt.rows == []
    modifies dt
    ensures dt.rows == []
    ensures r.Success? <==> AddColumns(old(dt.columns), DecimalColumns(dateCols)).Success?
    ensures r.Failure? ==> r.error == AddColumns(old(dt.columns), DecimalColumns(dateCols)).error
    ensures r.Success? ==> AddColumns(old(dt.columns), DecimalColumns(dateCols)) == Success(dt.columns)
  {
    ghost var goal := AddColumns(dt.columns, DecimalColumns(dateCols));
    var k := 0;
    while k < |dateCols|
      invariant 0 <= k <= |dateCols| && dt.rows == []
      invariant goal == AddColumns(dt.columns, DecimalColumns(dateCols)[k..])
    {
      var c := Column(dateCols[k], Decimal);
      ghost var pending := DecimalColumns(dateCols)[k..];
      assert pending[0] == c && pending[1..] == DecimalColumns(dateCols)[k + 1..];
      ghost var before := dt.columns;
      var added := dt.AddColumn(c);
      if added.Failure? {
        return Failure(added.error);
      }
      AddColumnsStep(before, pending);
      k := k + 1;
    }
    r := Success(());
  }

  /** Adding two lists is adding the first, then the second to the result. */
  lemma {:induction false} AddColumnsAppend(acc: seq<Column>, a: seq<Column>, b: seq<Column>)
    ensures AddColumns(acc, a + b) ==
      if AddColumns(acc, a).Success? then AddColumns(AddColumns(acc, a).value, b) else AddColumns(acc, a)
    decreases |a|
  {
    if a == [] {
      assert a + b == b;
    } else {
      assert (a + b)[0] == a[0] && (a + b)[1..] == a[1..] + b;
      if a[0].name !in Names(acc) {
        AddColumnsAppend(acc + [a[0]], a[1..], b);
      }
    }
  }

  /** One column of a pending list added: the rest of the list is added to the longer table. */
  lemma AddColumnsStep(acc: seq<Column>, cols: seq<Column>)
    requires cols != [] && cols[0].name !in Names(acc)
    ensures AddColumns(acc, cols) == AddColumns(acc + [cols[0]], cols[1..])
  {
  }

  // ---------------------------------------------------------------------------
  // Properties of the memory schema.

  /** Text and decimal columns: one per non-key input column, then one per derived name. */
  lemma {:induction false} MemorySchemaSize(inputs: seq<InputColumn>, dateCols: seq<string>)
    ensures |MemorySchema(inputs, dateCols)| == NonKeyCount(inputs) + |dateCols|
  {
    TextColumnsSize(inputs);
  }

  lemma {:induction false} TextColumnsSize(inputs: seq<InputColumn>)
    ensures |TextColumns(inputs)| == NonKeyCount(inputs)
    decreases |inputs|
  {
    if inputs != [] {
      TextColumnsSize(inputs[1..]);
    }
  }

  /** Configuration order is kept: the text columns of two sections in a row are those of the
      first, then those of the second. */
  lemma {:induction false} TextColumnsAppend(a: seq<InputColumn>, b: seq<InputColumn>)
    ensures TextColumns(a + b) == TextColumns(a) + TextColumns(b)
    decreases |a|
  {
    if a == [] {
      assert a + b == b;
    } else {
      assert (a + b)[0] == a[0] && (a + b)[1..] == a[1..] + b;
      TextColumnsAppend(a[1..], b);
    }
  }

  /** Every input column without `PrimaryKey` has a text column of its name ... */
  lemma {:induction false} NonKeyColumnKept(inputs: seq<InputColumn>, k: nat)
    requires k < |inputs| && !inputs[k].primaryKey
    ensures Column(inputs[k].name, Text) in TextColumns(inputs)
    decreases k
  {
    if k > 0 {
      NonKeyColumnKept(inputs[1..], k - 1);
    }
  }

  /** ... and no primary-key column does, unless a non-key column has the same name. */
  lemma {:induction false} TextColumnsFromNonKey(inputs: seq<InputColumn>, name: string)
    requires Column(name, Text) in TextColumns(inputs)
    ensures exists k :: 0 <= k < |inputs| && inputs[k].name == name && !inputs[k].primaryKey
    decreases |inputs|
  {
    var h := if inputs[0].primaryKey then [] else [Column(inputs[0].name, Text)];
    if Column(name, Text) !in h {
      TextColumnsFromNonKey(inputs[1..], name);
      var k :| 0 <= k < |inputs[1..]| && inputs[1..][k].name == name && !inputs[1..][k].primaryKey;
      assert inputs[k + 1] == inputs[1..][k];
    }
  }

  /** Only decimal columns follow the text columns, each named by its derived name. */
  lemma MemorySchemaKinds(inputs: seq<InputColumn>, dateCols: seq<string>, k: nat)
    requires k < |MemorySchema(inputs, dateCols)|
    ensures MemorySchema(inputs, dateCols)[k].kind == (if k < |TextColumns(inputs)| then Text else Decimal)
    ensures k >= |TextColumns(inputs)| ==>
      MemorySchema(inputs, dateCols)[k].name == dateCols[k - |TextColumns(inputs)|]
  {
    TextColumnsAreText(inputs, k);
  }

  lemma {:induction false} TextColumnsAreText(inputs: seq<InputColumn>, k: nat)
    ensures k < |TextColumns(inputs)| ==> TextColumns(inputs)[k].kind == Text
    decreases |inputs|
  {
    if inputs != [] {
      var h := if inputs[0].primaryKey then [] else [Column(inputs[0].name, Text)];
      if k >= |h| {
        TextColumnsAreText(inputs[1..], k - |h|);
      }
    }
  }
}
