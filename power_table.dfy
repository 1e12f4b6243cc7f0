/**
 * The stand-alone power-table script: it reads the same four (norm, lnorm)
 * file columns as the table builder, but straight under one output directory
 * and without comparing the columns' labels, puts the last column's labels in
 * front of the four rate columns, and prints the table row by row.
 */
module PowerTable {
  import opened Wrappers
  import opened PyText
  import opened Slices
  import opened Grid
  import opened PowerRecords

  /** A cell of the returned table: a label of the first column or a rate of the others. */
  datatype Cell<V> = Label(name: string) | Rate(value: V)

  const ScriptOutputDir := "nparLD"
  const ScriptPeriod := "period_1"

  /**
   * Reading the columns in order; the first failure wins. On success: the
   * labels of the last column read (each column replaces them) and the rates
   * of every column.
   */
  function CollectAll<V>(results: seq<ColumnRead<V>>): (r: Result<(seq<string>, seq<seq<V>>), Failure>)
    ensures r.Ok? ==> |r.value.1| == |results|
    decreases |results|
  {
    if results == [] then Ok(([], []))
    else
      var before :- CollectAll(results[..|results| - 1]);
      var column :- results[|results| - 1];
      Ok((column.labels, before.1 + [column.values]))
  }

  function Labels<V>(names: seq<string>): (cells: seq<Cell<V>>)
    ensures |cells| == |names|
  {
    seq(|names|, i requires 0 <= i < |names| => Label(names[i]))
  }

  function Rates<V>(values: seq<V>): (cells: seq<Cell<V>>)
    ensures |cells| == |values|
  {
    seq(|values|, i requires 0 <= i < |values| => Rate(values[i]))
  }

  /** `[rownames] + table`: the labels in front of the rate columns. */
  function ScriptTable<V>(names: seq<string>, cols: seq<seq<V>>): (table: seq<seq<Cell<V>>>)
    ensures |table| == |cols| + 1
  {
    [Labels(names)] + seq(|cols|, c requires 0 <= c < |cols| => Rates(cols[c]))
  }

  /** `collect_single_power_table`. */
  function SingleTableOf<V>(files: map<string, PowerRecord<V>>, outputDir: string, period: string): (r: Result<seq<seq<Cell<V>>>, Failure>)
    ensures r.Ok? <==> AllRead(ReadColumns(files, outputDir, period, FileColumns()))
    ensures r.Ok? ==> |r.value| == |FileColumns()| + 1
  {
    CollectAllOk(ReadColumns(files, outputDir, period, FileColumns()));
    var collected :- CollectAll(ReadColumns(files, outputDir, period, FileColumns()));
    Ok(ScriptTable(collected.0, collected.1))
  }

  /** Collecting succeeds exactly when every column reads; it keeps every column's rates and the last labels. */
  lemma {:induction false} CollectAllOk<V>(results: seq<ColumnRead<V>>)
    ensures CollectAll(results).Ok? <==> AllRead(results)
    ensures CollectAll(results).Ok? ==>
      && (results != [] ==> CollectAll(results).value.0 == results[|results| - 1].value.labels)
      && forall c :: 0 <= c < |results| ==> CollectAll(results).value.1[c] == results[c].value.values
    decreases |results|
  {
    if results != [] {
      var front := results[..|results| - 1];
      CollectAllOk(front);
      assert forall c :: 0 <= c < |front| ==> front[c] == results[c];
    }
  }

  /**
   * The script's table has five columns: the labels of the last file column
   * (pain, scenario 2), then the rates of the four file columns in order.
   * It is built exactly when all eight files read; labels are not compared.
   */
  lemma SingleTableShape<V>(files: map<string, PowerRecord<V>>, outputDir: string, period: string)
    ensures var results := ReadColumns(files, outputDir, period, FileColumns());
            var t := SingleTableOf(files, outputDir, period);
            && (t.Ok? <==> AllRead(results))
            && (t.Ok? ==>
                  && |t.value| == 5
                  && t.value == ScriptTable(results[3].value.labels, seq(4, c requires 0 <= c < 4 => results[c].value.values)))
  {
    CollectAllOk(ReadColumns(files, outputDir, period, FileColumns()));
  }

  /**
   * The script reads the columns a method's power table is built from when
   * pointed at that method's directory, and builds whenever the table builder
   * does: it checks strictly less.
   */
  lemma SingleTableWhereBuilt<V>(files: map<string, PowerRecord<V>>, outputDir: string, methodName: string, period: string)
    requires AllRead(ReadColumns(files, Join(outputDir, methodName), period, FileColumns()))
    ensures SingleTableOf(files, Join(outputDir, methodName), period).Ok?
  {
    SingleTableShape(files, Join(outputDir, methodName), period);
  }

  /** `collect_single_power_table`, column by column, with the reads done per file. */
  method CollectSinglePowerTable<V>(files: map<string, PowerRecord<V>>, outputDir: string, keyPeriod: string)
    returns (res: Result<seq<seq<Cell<V>>>, Failure>)
    ensures res == SingleTableOf(files, outputDir, keyPeriod)
  {
    var columns := FileColumns();
    ghost var results := ReadColumns(files, outputDir, keyPeriod, columns);
    var table: seq<seq<V>> := [];
    var rownames: seq<string> := [];
    for c := 0 to |columns|
      invariant CollectAll(results[..c]) == Ok((rownames, table))
    {
      var column := ReadColumnFiles(files, outputDir, columns[c], keyPeriod);
      TakeTake(results, c, c + 1);
      if column.Err? {
        CollectAllErrExtends(results, c + 1);
        return Err(column.error);
      }
      rownames := column.value.labels;
      table := table + [column.value.values];
    }
    TakeAll(results);
    res := Ok(ScriptTable(rownames, table));
  }

  /** Once a prefix of the columns fails, collecting all of them fails the same way. */
  lemma {:induction false} CollectAllErrExtends<V>(results: seq<ColumnRead<V>>, j: nat)
    requires j <= |results|
    requires CollectAll(results[..j]).Err?
    ensures CollectAll(results) == CollectAll(results[..j])
    decreases |results| - j
  {
    if j < |results| {
      var shorter := results[..|results| - 1];
      TakeTake(results, j, |results| - 1);
      CollectAllErrExtends(shorter, j);
    } else {
      TakeAll(results);
    }
  }

  /**
   * The printing loop: as many rows as the first column is long, row i made
   * of every column's i-th cell. An empty table, or a column shorter than the
   * first, raises IndexError once the loop reaches its end; the rows before
   * that have been printed.
   */
  method PrintRows<T>(table: seq<seq<T>>) returns (printed: seq<seq<T>>, failure: Option<Failure>)
    ensures table == [] ==> printed == [] && failure == Some(IndexError)
    ensures table != [] ==> printed == Transpose(table)
    ensures table != [] ==> (failure.None? <==> forall c :: 0 <= c < |table| ==> |table[0]| <= |table[c]|)
    ensures failure.None? || failure == Some(IndexError)
  {
    printed := [];
    if table == [] {
      return [], Some(IndexError);
    }
    var nRow := |table[0]|;
    for i := 0 to nRow
      invariant forall c :: 0 <= c < |table| ==> i <= |table[c]|
      invariant printed == Transpose(table)[..i]
    {
      var row: seq<T> := [];
      for c := 0 to |table|
        invariant forall k :: 0 <= k < c ==> i < |table[k]|
        invariant |row| == c && forall k :: 0 <= k < c ==> row[k] == table[k][i]
      {
        if |table[c]| <= i {
          assert MinLen(table) == i;
          assert printed == Transpose(table);
          return printed, Some(IndexError);
        }
        row := row + [table[c][i]];
      }
      assert i < MinLen(table);
      assert row == Transpose(table)[i];
      printed := printed + [row];
    }
    assert MinLen(table) == nRow;
    failure := None;
  }

  /**
   * Printing `[rownames] + table` runs to its end exactly when no column has
   * fewer rates than there are labels.
   */
  lemma ScriptTablePrintsAll<V>(names: seq<string>, cols: seq<seq<V>>)
    ensures var table := ScriptTable(names, cols);
            (forall c :: 0 <= c < |table| ==> |table[0]| <= |table[c]|) <==>
              forall c :: 0 <= c < |cols| ==> |names| <= |cols[c]|
  {
    var table := ScriptTable(names, cols);
    forall c | 0 <= c < |cols|
      ensures |table[c + 1]| == |cols[c]|
    {
    }
  }

  /** Printed row i is the i-th label followed by every column's i-th rate. */
  lemma ScriptTableRows<V>(names: seq<string>, cols: seq<seq<V>>)
    ensures var rows := Transpose(ScriptTable(names, cols));
            forall i :: 0 <= i < |rows| ==>
              && i < |names| && |rows[i]| == |cols| + 1 && rows[i][0] == Label(names[i])
              && forall c :: 0 <= c < |cols| ==> i < |cols[c]| && rows[i][c + 1] == Rate(cols[c][i])
  {
    var table := ScriptTable(names, cols);
    var rows := Transpose(table);
    forall i, c | 0 <= i < |rows| && 0 <= c < |cols|
      ensures i < |cols[c]| && rows[i][c + 1] == Rate(cols[c][i])
    {
      assert table[c + 1] == Rates(cols[c]);
    }
  }

  /** The script: collect the `nparLD` table for `period_1` and print it. */
  method PowerTableScript<V>(files: map<string, PowerRecord<V>>) returns (printed: seq<seq<Cell<V>>>, failure: Option<Failure>)
    ensures var t := SingleTableOf(files, ScriptOutputDir, ScriptPeriod);
            && (t.Err? ==> printed == [] && failure == Some(t.error))
            && (t.Ok? ==> printed == Transpose(t.value))
            && (t.Ok? ==> (failure.None? <==> forall c :: 0 <= c < |t.value| ==> |t.value[0]| <= |t.value[c]|))
            && (t.Ok? ==> failure.None? || failure == Some(IndexError))
  {
    var table := CollectSinglePowerTable(files, ScriptOutputDir, ScriptPeriod);
    if table.Err? {
      return [], Some(table.error);
    }
    printed, failure := PrintRows(table.value);
  }
}
