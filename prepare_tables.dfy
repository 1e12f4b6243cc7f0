/**
 * The power-table builder: for one method and one period it reads the four
 * (norm, lnorm) file pairs, collects each column's effect-parameter labels and
 * rejection rates in file order, asserts that every column repeats the
 * previous column's labels, transposes the columns into rows and attaches a
 * two-level row index (effect family, magnitude) and a three-level column
 * index (methodName, outcome, scenario).
 */
module PrepareTables {
  import opened Wrappers
  import opened PyText
  import opened Slices
  import opened Grid
  import opened PowerRecords

  /** (effect family, effect magnitude), both LaTeX text. */
  type RowKey = (string, string)
  /** (methodName, outcome, scenario). */
  type ColumnKey = (string, string, string)

  const LogFamily := "\\mu_{\\mbox{\\scriptsize log}}"
  const NormFamily := "\\mu_{\\mbox{\\scriptsize norm}}"

  /** The closed map from effect-parameter labels to row keys. */
  const RownameMap: map<string, RowKey> := map[
    "meanlog=0.2, sdlog=1" := (LogFamily, "0.2"),
    "meanlog=0.6, sdlog=1" := (LogFamily, "0.6"),
    "meanlog=0.9, sdlog=1" := (LogFamily, "0.9"),
    "mean=2, sd=1" := (NormFamily, "2"),
    "mean=3, sd=1" := (NormFamily, "3"),
    "mean=4, sd=1" := (NormFamily, "4")
  ]

  /**
   * The frame handed back: a row index, a column index and the cells. A cell
   * is None where the frame holds NaN, which happens when the frame is built
   * from no data rows but a non-empty index.
   */
  datatype Frame<V> = Frame(cells: seq<seq<Option<V>>>, index: seq<RowKey>, columns: seq<ColumnKey>)

  /** The columns collected so far and the labels of the last one. */
  datatype Collected<V> = Collected(table: seq<seq<V>>, labels: seq<string>)

  /** The three `meanlog=` labels go to the log family, the three `mean=` labels to the norm family. */
  lemma RownameMapFamilies()
    ensures |RownameMap.Keys| == 6
    ensures RownameMap["meanlog=0.2, sdlog=1"].0 == RownameMap["meanlog=0.6, sdlog=1"].0
            == RownameMap["meanlog=0.9, sdlog=1"].0 == LogFamily
    ensures RownameMap["mean=2, sd=1"].0 == RownameMap["mean=3, sd=1"].0 == RownameMap["mean=4, sd=1"].0 == NormFamily
  {
  }

  /** No two labels share a row key. */
  lemma RownameMapInjective()
    ensures forall l1, l2 :: l1 in RownameMap && l2 in RownameMap && l1 != l2 ==> RownameMap[l1] != RownameMap[l2]
  {
  }

  /** Every label has an entry in the map. */
  predicate AllKnown(rowMap: map<string, RowKey>, labels: seq<string>) {
    forall i :: 0 <= i < |labels| ==> labels[i] in rowMap
  }

  /**
   * `[rowMap[name] for name in labels]`: raises KeyError at the first unknown
   * label. The build passes `RownameMap`.
   */
  function MapRownames(rowMap: map<string, RowKey>, labels: seq<string>): (r: Result<seq<RowKey>, Failure>)
    ensures r.Ok? <==> AllKnown(rowMap, labels)
    ensures r.Ok? ==> |r.value| == |labels| && forall i :: 0 <= i < |labels| ==> r.value[i] == rowMap[labels[i]]
    ensures r.Err? ==> exists i :: 0 <= i < |labels| && labels[i] !in rowMap && r.error == KeyError(labels[i])
                                   && forall j :: 0 <= j < i ==> labels[j] in rowMap
    decreases |labels|
  {
    if labels == [] then Ok([])
    else
      var front :- MapRownames(rowMap, labels[..|labels| - 1]);
      var last := labels[|labels| - 1];
      if last !in rowMap then Err(KeyError(last)) else Ok(front + [rowMap[last]])
  }

  /** The row index: the mapped labels; a multi-level index cannot be built from none. */
  function RowIndex(rowMap: map<string, RowKey>, labels: seq<string>): (r: Result<seq<RowKey>, Failure>)
    ensures r.Ok? <==> labels != [] && AllKnown(rowMap, labels)
    ensures r.Ok? ==> r.value == MapRownames(rowMap, labels).value
  {
    var keys :- MapRownames(rowMap, labels);
    if keys == [] then Err(EmptyRowIndex) else Ok(keys)
  }

  /**
   * The column index: the product of the levels (method) x (Pruritus, Pain) x
   * (Scenario 1, Scenario 2), the first level varying slowest.
   */
  function ColumnIndex(methodName: string): (keys: seq<ColumnKey>)
    ensures |keys| == 4
  {
    var outcomes := [SubdirPruritus, SubdirPain];
    var scenarios := [SubdirScenario1, SubdirScenario2];
    seq(4, i requires 0 <= i < 4 => (methodName, outcomes[i / 2], scenarios[i % 2]))
  }

  /** The four column keys in product order. */
  lemma ColumnIndexOrder(methodName: string)
    ensures ColumnIndex(methodName) == [(methodName, SubdirPruritus, SubdirScenario1), (methodName, SubdirPruritus, SubdirScenario2),
                                        (methodName, SubdirPain, SubdirScenario1), (methodName, SubdirPain, SubdirScenario2)]
  {
  }

  /** The c-th column key names the outcome and scenario of the c-th file pair. */
  lemma ColumnIndexMatchesFiles(methodName: string, c: nat)
    requires c < 4
    ensures var key := ColumnIndex(methodName)[c];
            key.0 == methodName && FileColumns()[c] == FilePair(key.1, key.2)
  {
    ColumnIndexOrder(methodName);
    var keys := ColumnIndex(methodName);
    if c == 0 {
      assert keys[0] == (methodName, SubdirPruritus, SubdirScenario1);
    } else if c == 1 {
      assert keys[1] == (methodName, SubdirPruritus, SubdirScenario2);
    } else if c == 2 {
      assert keys[2] == (methodName, SubdirPain, SubdirScenario1);
    } else {
      assert keys[3] == (methodName, SubdirPain, SubdirScenario2);
    }
  }

  /**
   * The frame constructor: data rows must match the index; no data rows at
   * all gives a frame of NaN cells shaped by the two indexes.
   */
  function NewFrame<V>(rows: seq<seq<V>>, index: seq<RowKey>, columns: seq<ColumnKey>): (r: Result<Frame<V>, Failure>)
    requires forall i :: 0 <= i < |rows| ==> |rows[i]| == |columns|
    ensures r.Ok? <==> rows == [] || |rows| == |index|
    ensures r.Ok? ==> r.value.index == index && r.value.columns == columns && |r.value.cells| == |index|
    ensures r.Ok? ==> forall i :: 0 <= i < |index| ==> |r.value.cells[i]| == |columns|
    ensures r.Ok? ==> forall i, j :: 0 <= i < |index| && 0 <= j < |columns| ==>
      r.value.cells[i][j] == if rows == [] then None else Some(rows[i][j])
  {
    if rows == [] then
      Ok(Frame(seq(|index|, _ => seq(|columns|, _ => None)), index, columns))
    else if |rows| != |index| then Err(ShapeError)
    else
      Ok(Frame(seq(|rows|, i requires 0 <= i < |rows| =>
                 seq(|columns|, j requires 0 <= j < |columns| => Some(rows[i][j]))), index, columns))
  }

  /**
   * Taking the column reads in order, checking each against the previous
   * column's labels unless those were empty. Reading has no effects, so
   * reading every column up front gives the same first failure as the
   * source's read-then-check loop.
   */
  function CollectColumns<V>(results: seq<ColumnRead<V>>): (r: Result<Collected<V>, Failure>)
    ensures r.Ok? ==> |r.value.table| == |results|
    decreases |results|
  {
    if results == [] then Ok(Collected([], []))
    else
      var before :- CollectColumns(results[..|results| - 1]);
      var column :- results[|results| - 1];
      if |before.labels| > 0 && before.labels != column.labels then Err(AssertionError(|results| - 1))
      else Ok(Collected(before.table + [column.values], column.labels))
  }

  /**
   * The build, in the order the source performs it, over the column reads
   * and the column keys: collect, transpose, map the labels, frame.
   */
  function BuildFrame<V>(rowMap: map<string, RowKey>, results: seq<ColumnRead<V>>, columns: seq<ColumnKey>): (r: Result<Frame<V>, Failure>)
    requires |results| == |columns|
    ensures r.Ok? ==> AllRead(results)
    ensures r.Ok? ==> r.value.columns == columns && r.value.index != [] && |r.value.cells| == |r.value.index|
    ensures r.Ok? ==> forall i :: 0 <= i < |r.value.cells| ==> |r.value.cells[i]| == |columns|
  {
    CollectColumnsOk(results);
    var collected :- CollectColumns(results);
    var rows := Transpose(collected.table);
    var index :- RowIndex(rowMap, collected.labels);
    NewFrame(rows, index, columns)
  }

  /** The power table of one method: its four file columns under `outputDir/methodName`. */
  function PowerTableOf<V>(files: map<string, PowerRecord<V>>, outputDir: string, methodName: string, period: string): (r: Result<Frame<V>, Failure>)
    ensures r.Ok? ==> AllRead(ReadColumns(files, Join(outputDir, methodName), period, FileColumns()))
    ensures r.Ok? ==> r.value.columns == ColumnIndex(methodName) && r.value.index != [] && |r.value.cells| == |r.value.index|
  {
    BuildFrame(RownameMap, ReadColumns(files, Join(outputDir, methodName), period, FileColumns()), ColumnIndex(methodName))
  }

  // ---------------------------------------------------------------------------
  // What the build promises, stated over the columns read one by one.
  // ---------------------------------------------------------------------------

  /** Each column's labels, or [] for a column that cannot be read. */
  function LabelsOf<V>(results: seq<ColumnRead<V>>): (ls: seq<seq<string>>)
    ensures |ls| == |results|
  {
    seq(|results|, c requires 0 <= c < |results| => if results[c].Ok? then results[c].value.labels else [])
  }

  /** Every column after a non-empty one repeats its labels, in order. */
  predicate Consistent(ls: seq<seq<string>>) {
    forall c :: 1 <= c < |ls| && ls[c - 1] != [] ==> ls[c] == ls[c - 1]
  }

  lemma ConsistentSnoc(ls: seq<seq<string>>)
    requires ls != []
    ensures var n := |ls|;
      Consistent(ls) <==> Consistent(ls[..n - 1]) && (n >= 2 && ls[n - 2] != [] ==> ls[n - 1] == ls[n - 2])
  {
  }

  /** Collection succeeds exactly when every column reads and the labels are consistent. */
  lemma {:induction false} CollectColumnsOk<V>(results: seq<ColumnRead<V>>)
    ensures CollectColumns(results).Ok? <==> AllRead(results) && Consistent(LabelsOf(results))
    ensures CollectColumns(results).Ok? && results != [] ==> CollectColumns(results).value.labels == results[|results| - 1].value.labels
    decreases |results|
  {
    if results != [] {
      var n := |results|;
      var front := results[..n - 1];
      CollectColumnsOk(front);
      var ls := LabelsOf(results);
      assert LabelsOf(front) == ls[..n - 1];
      assert AllRead(results) <==> AllRead(front) && results[n - 1].Ok?;
      ConsistentSnoc(ls);
    }
  }

  /** A successful collection holds each column's rates, in column order. */
  lemma {:induction false} CollectColumnsTable<V>(results: seq<ColumnRead<V>>)
    requires CollectColumns(results).Ok?
    ensures var table := CollectColumns(results).value.table;
            forall c :: 0 <= c < |results| ==> results[c].Ok? && table[c] == results[c].value.values
    decreases |results|
  {
    if results != [] {
      var front := results[..|results| - 1];
      CollectColumnsTable(front);
      assert forall c :: 0 <= c < |front| ==> front[c] == results[c];
    }
  }

  /** In consistent label lists, everything from the first non-empty list on is equal to it. */
  lemma {:induction false} ConsistentFrom(ls: seq<seq<string>>, c: nat)
    requires Consistent(ls)
    requires c < |ls| && ls[0] != []
    ensures ls[c] == ls[0]
  {
    if c > 0 {
      ConsistentFrom(ls, c - 1);
    }
  }

  /** Once a prefix of the columns fails, the whole collection fails the same way. */
  lemma {:induction false} CollectColumnsErrExtends<V>(results: seq<ColumnRead<V>>, j: nat)
    requires j <= |results|
    requires CollectColumns(results[..j]).Err?
    ensures CollectColumns(results) == CollectColumns(results[..j])
    decreases |results| - j
  {
    if j < |results| {
      var shorter := results[..|results| - 1];
      TakeTake(results, j, |results| - 1);
      CollectColumnsErrExtends(shorter, j);
    } else {
      TakeAll(results);
    }
  }

  /**
   * The rows come out as long as the columns they came from: as many as the
   * last column's labels, or none when the first column had no labels.
   */
  lemma CollectedRows<V>(results: seq<ColumnRead<V>>)
    requires results != [] && Lockstep(results) && CollectColumns(results).Ok?
    ensures var ls := LabelsOf(results);
            var collected := CollectColumns(results).value;
            && collected.labels == ls[|results| - 1]
            && (ls[0] != [] ==> |Transpose(collected.table)| == |ls[|results| - 1]|)
            && (ls[0] == [] ==> Transpose(collected.table) == [])
  {
    CollectColumnsOk(results);
    CollectColumnsTable(results);
    var ls := LabelsOf(results);
    var table := CollectColumns(results).value.table;
    if ls[0] != [] {
      forall c | 0 <= c < |results|
        ensures |table[c]| == |ls[0]|
      {
        ConsistentFrom(ls, c);
      }
      RectangularMinLen(table, |ls[0]|);
      ConsistentFrom(ls, |results| - 1);
    }
  }

  /**
   * The build succeeds exactly when every column reads, the column labels are
   * consistent, and the last column has labels, all of them in the map.
   */
  lemma BuildSucceeds<V>(rowMap: map<string, RowKey>, results: seq<ColumnRead<V>>, columns: seq<ColumnKey>)
    requires |results| == |columns| && results != [] && Lockstep(results)
    ensures var ls := LabelsOf(results);
            BuildFrame(rowMap, results, columns).Ok? <==>
              AllRead(results) && Consistent(ls) && ls[|results| - 1] != [] && AllKnown(rowMap, ls[|results| - 1])
  {
    CollectColumnsOk(results);
    if CollectColumns(results).Ok? {
      CollectedRows(results);
    }
  }

  /**
   * A successful build has one row per label of the last column, keyed by the
   * label's map entry in file order, and the given column keys. Cell (r, c) is
   * the r-th rate read for column c, unless the first column had no labels,
   * in which case the frame holds no data.
   */
  lemma BuildShape<V>(rowMap: map<string, RowKey>, results: seq<ColumnRead<V>>, columns: seq<ColumnKey>)
    requires |results| == |columns| && results != [] && Lockstep(results)
    requires BuildFrame(rowMap, results, columns).Ok?
    ensures var ls := LabelsOf(results);
            var last := ls[|results| - 1];
            var frame := BuildFrame(rowMap, results, columns).value;
            && |frame.cells| == |frame.index| == |last|
            && AllKnown(rowMap, last)
            && (forall i :: 0 <= i < |last| ==> frame.index[i] == rowMap[last[i]])
            && frame.columns == columns
            && (forall r :: 0 <= r < |frame.cells| ==> |frame.cells[r]| == |results|)
            && AllRead(results)
            && (ls[0] != [] ==> forall c :: 0 <= c < |results| ==> |results[c].value.values| == |last|)
            && (forall r, c :: 0 <= r < |frame.cells| && 0 <= c < |results| ==>
                  frame.cells[r][c] == if ls[0] == [] then None else Some(results[c].value.values[r]))
  {
    CollectColumnsOk(results);
    CollectColumnsTable(results);
    CollectedRows(results);
    var ls := LabelsOf(results);
    if ls[0] != [] {
      forall c | 0 <= c < |results|
        ensures |results[c].value.values| == |ls[|results| - 1]|
      {
        ConsistentFrom(ls, c);
        ConsistentFrom(ls, |results| - 1);
      }
    }
  }

  /** A column whose labels differ from a non-empty previous column's aborts the build. */
  lemma LabelMismatchAborts<V>(rowMap: map<string, RowKey>, results: seq<ColumnRead<V>>, columns: seq<ColumnKey>, c: nat)
    requires |results| == |columns| && 1 <= c < |results| && Lockstep(results)
    requires var ls := LabelsOf(results); results[c].Ok? && ls[c - 1] != [] && ls[c] != ls[c - 1]
    ensures BuildFrame(rowMap, results, columns).Err?
  {
    BuildSucceeds(rowMap, results, columns);
  }

  /**
   * After a column with no labels the next column is not compared: if the
   * columns so far were accepted, the next one is accepted whatever its labels.
   */
  lemma LabelCheckSkippedAfterEmpty<V>(results: seq<ColumnRead<V>>, c: nat)
    requires 1 <= c < |results|
    requires CollectColumns(results[..c]).Ok?
    requires results[c].Ok? && results[c - 1].Ok? && results[c - 1].value.labels == []
    ensures var next := CollectColumns(results[..c + 1]);
            next.Ok? && next.value.labels == results[c].value.labels
  {
    var front := results[..c];
    var upto := results[..c + 1];
    assert front[..c - 1] + [front[c - 1]] == front;
    assert upto[..c] == front && upto[c] == results[c];
  }

  /** A column that cannot be read (missing file, `power`, `rejection_rate` or period) aborts the build. */
  lemma UnreadableColumnAborts<V>(rowMap: map<string, RowKey>, results: seq<ColumnRead<V>>, columns: seq<ColumnKey>, c: nat)
    requires |results| == |columns| && c < |results| && Lockstep(results)
    requires results[c].Err?
    ensures BuildFrame(rowMap, results, columns).Err?
  {
    BuildSucceeds(rowMap, results, columns);
  }

  /**
   * The power table of a method builds exactly when all eight files read, the
   * four columns' labels agree wherever the previous column had any, and the
   * last column's labels are non-empty and all in the label map.
   */
  lemma PowerTableSucceeds<V>(files: map<string, PowerRecord<V>>, outputDir: string, methodName: string, period: string)
    ensures var results := ReadColumns(files, Join(outputDir, methodName), period, FileColumns());
            var ls := LabelsOf(results);
            PowerTableOf(files, outputDir, methodName, period).Ok? <==>
              AllRead(results) && Consistent(ls) && ls[3] != [] && AllKnown(RownameMap, ls[3])
  {
    var results := ReadColumns(files, Join(outputDir, methodName), period, FileColumns());
    ReadColumnsLockstep(files, Join(outputDir, methodName), period, FileColumns());
    BuildSucceeds(RownameMap, results, ColumnIndex(methodName));
  }

  /**
   * A built power table has the four column keys of the method, one row per
   * label of the last column keyed through the label map, and in cell (r, c)
   * the r-th rate of column c, or NaN everywhere when the first column was empty.
   */
  lemma PowerTableShape<V>(files: map<string, PowerRecord<V>>, outputDir: string, methodName: string, period: string)
    requires PowerTableOf(files, outputDir, methodName, period).Ok?
    ensures var results := ReadColumns(files, Join(outputDir, methodName), period, FileColumns());
            var ls := LabelsOf(results);
            var frame := PowerTableOf(files, outputDir, methodName, period).value;
            && frame.columns == ColumnIndex(methodName)
            && |frame.cells| == |frame.index| == |ls[3]|
            && AllKnown(RownameMap, ls[3])
            && (forall i :: 0 <= i < |ls[3]| ==> frame.index[i] == RownameMap[ls[3][i]])
            && (forall r :: 0 <= r < |frame.cells| ==> |frame.cells[r]| == 4)
            && AllRead(results)
            && (ls[0] != [] ==> forall c :: 0 <= c < 4 ==> |results[c].value.values| == |ls[3]|)
            && (forall r, c :: 0 <= r < |frame.cells| && 0 <= c < 4 ==>
                  frame.cells[r][c] == if ls[0] == [] then None else Some(results[c].value.values[r]))
  {
    var results := ReadColumns(files, Join(outputDir, methodName), period, FileColumns());
    ReadColumnsLockstep(files, Join(outputDir, methodName), period, FileColumns());
    BuildShape(RownameMap, results, ColumnIndex(methodName));
  }

  /** The first column that cannot be read decides the failure of the build. */
  lemma ColumnFails<V>(rowMap: map<string, RowKey>, results: seq<ColumnRead<V>>, columns: seq<ColumnKey>, c: nat)
    requires |results| == |columns| && c < |results|
    requires CollectColumns(results[..c]).Ok?
    requires results[c].Err?
    ensures BuildFrame(rowMap, results, columns) == Err(results[c].error)
  {
    TakeTake(results, c, c + 1);
    CollectColumnsErrExtends(results, c + 1);
  }

  /** The first column whose labels differ from the previous non-empty ones decides the failure. */
  lemma ColumnMismatches<V>(rowMap: map<string, RowKey>, results: seq<ColumnRead<V>>, columns: seq<ColumnKey>, c: nat)
    requires |results| == |columns| && c < |results|
    requires CollectColumns(results[..c]).Ok? && results[c].Ok?
    requires var previous := CollectColumns(results[..c]).value.labels;
             |previous| > 0 && previous != results[c].value.labels
    ensures BuildFrame(rowMap, results, columns) == Err(AssertionError(c))
  {
    TakeTake(results, c, c + 1);
    CollectColumnsErrExtends(results, c + 1);
  }

  /**
   * `prepare_power_table`: for each of the four file columns, read the norm
   * and then the lnorm file under `outputDir/methodName`, compare the labels
   * with the previous column's, and finally transpose and frame the rates.
   */
  method PreparePowerTable<V>(files: map<string, PowerRecord<V>>, outputDir: string, methodName: string, period: string)
    returns (res: Result<Frame<V>, Failure>)
    ensures res == PowerTableOf(files, outputDir, methodName, period)
  {
    var fileColumns := FileColumns();
    var columnIndex := ColumnIndex(methodName);
    var dir := Join(outputDir, methodName);
    ghost var results := ReadColumns(files, dir, period, fileColumns);
    var table: seq<seq<V>> := [];
    var previousRownames: seq<string> := [];
    var rownames: seq<string> := [];
    for c := 0 to |fileColumns|
      invariant CollectColumns(results[..c]) == Ok(Collected(table, previousRownames))
      invariant c > 0 ==> rownames == previousRownames
    {
      var column := ReadColumnFiles(files, dir, fileColumns[c], period);
      if column.Err? {
        ColumnFails(RownameMap, results, columnIndex, c);
        return Err(column.error);
      }
      rownames := column.value.labels;
      if |previousRownames| > 0 && previousRownames != rownames {
        ColumnMismatches(RownameMap, results, columnIndex, c);
        return Err(AssertionError(c));
      }
      TakeTake(results, c, c + 1);
      previousRownames := rownames;
      table := table + [column.value.values];
    }
    TakeAll(results);
    var rows := Transpose(table);
    var rowIndex := RowIndex(RownameMap, rownames);
    if rowIndex.Err? {
      return Err(rowIndex.error);
    }
    res := NewFrame(rows, rowIndex.value, columnIndex);
  }
}
