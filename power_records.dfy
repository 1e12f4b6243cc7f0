/**
 * The result files read by the power-table builders, and what reading them
 * yields. A file is JSON; only the part the builders touch is kept: the
 * `power` object, whose keys are effect-parameter labels in file order, and
 * for each label a `rejection_rate` object keyed by period. Rejection rates
 * are never computed on, so their type `V` stays abstract.
 */
module PowerRecords {
  import opened Wrappers
  import opened PyText
  import opened Slices

  /** The object stored under one effect-parameter label. */
  datatype ParameterEntry<V> = ParameterEntry(rejectionRate: Option<map<string, V>>)

  /** A loaded result file. `power` is None when the key is absent. */
  datatype PowerRecord<V> = PowerRecord(power: Option<seq<(string, ParameterEntry<V>)>>)

  /** The exceptions the builders can raise. */
  datatype Failure =
    | FileNotFound(path: string)      // open() of a path that does not exist
    | KeyError(key: string)           // a dict lookup of an absent key
    | AssertionError(column: nat)     // the label-consistency assert, at this column
    | EmptyRowIndex                   // a multi-level index built from no labels (TypeError)
    | ShapeError                      // a frame whose data and index disagree (ValueError)
    | IndexError                      // a list index out of range

  /** Labels and rejection rates appended in lockstep. */
  datatype Extracted<V> = Extracted(labels: seq<string>, values: seq<V>)

  const KeyPower := "power"
  const KeyRejectionRate := "rejection_rate"

  /** The file layout both builders read: outcome / scenario / distribution. */
  const SubdirPain := "Pain"
  const SubdirPruritus := "Pruritus"
  const SubdirScenario1 := "Scenario 1"
  const SubdirScenario2 := "Scenario 2"
  const OutfileNorm := "norm"
  const OutfileLnorm := "lnorm"

  /** The (norm, lnorm) file stems of one outcome and scenario. */
  function FilePair(target: string, scenario: string): (string, string) {
    (Join3(target, scenario, OutfileNorm), Join3(target, scenario, OutfileLnorm))
  }

  /**
   * The four table columns in order: pruritus scenario 1, pruritus scenario 2,
   * pain scenario 1, pain scenario 2.
   */
  function FileColumns(): (cols: seq<(string, string)>)
    ensures |cols| == 4
  {
    [ FilePair(SubdirPruritus, SubdirScenario1), FilePair(SubdirPruritus, SubdirScenario2),
      FilePair(SubdirPain, SubdirScenario1), FilePair(SubdirPain, SubdirScenario2) ]
  }

  /**
   * Walking a `power` object in its stored order: every label is appended
   * together with its rate for `period`; the first entry without
   * `rejection_rate`, or whose `rejection_rate` lacks `period`, raises.
   */
  function ExtractEntries<V>(entries: seq<(string, ParameterEntry<V>)>, period: string): (r: Result<Extracted<V>, Failure>)
    ensures r.Ok? ==> |r.value.labels| == |entries| && |r.value.values| == |entries|
    ensures r.Err? ==> r.error == KeyError(KeyRejectionRate) || r.error == KeyError(period)
    decreases |entries|
  {
    if entries == [] then Ok(Extracted([], []))
    else
      var front :- ExtractEntries(entries[..|entries| - 1], period);
      var entry := entries[|entries| - 1];
      if entry.1.rejectionRate.None? then Err(KeyError(KeyRejectionRate))
      else if period !in entry.1.rejectionRate.value then Err(KeyError(period))
      else Ok(Extracted(front.labels + [entry.0], front.values + [entry.1.rejectionRate.value[period]]))
  }

  /** Opening, loading and walking one file. */
  function ReadFile<V>(files: map<string, PowerRecord<V>>, path: string, period: string): (r: Result<Extracted<V>, Failure>)
    ensures path !in files ==> r == Err(FileNotFound(path))
    ensures path in files && files[path].power.None? ==> r == Err(KeyError(KeyPower))
    ensures path in files && files[path].power.Some? ==> r == ExtractEntries(files[path].power.value, period)
  {
    if path !in files then Err(FileNotFound(path))
    else if files[path].power.None? then Err(KeyError(KeyPower))
    else ExtractEntries(files[path].power.value, period)
  }

  /** Reading several files in order into one pair of lists. */
  function ReadPaths<V>(files: map<string, PowerRecord<V>>, paths: seq<string>, period: string): (r: Result<Extracted<V>, Failure>)
    ensures r.Ok? ==> |r.value.labels| == |r.value.values|
    decreases |paths|
  {
    if paths == [] then Ok(Extracted([], []))
    else
      var front :- ReadPaths(files, paths[..|paths| - 1], period);
      var last :- ReadFile(files, paths[|paths| - 1], period);
      Ok(Extracted(front.labels + last.labels, front.values + last.values))
  }

  /**
   * The walk succeeds exactly when every entry has a `rejection_rate` holding
   * `period`, and then lists each entry's label and rate at the entry's place.
   */
  lemma {:induction false} ExtractEntriesOk<V>(entries: seq<(string, ParameterEntry<V>)>, period: string)
    ensures var r := ExtractEntries(entries, period);
      && (r.Ok? <==> forall k :: 0 <= k < |entries| ==>
            entries[k].1.rejectionRate.Some? && period in entries[k].1.rejectionRate.value)
      && (r.Ok? ==> forall k :: 0 <= k < |entries| ==>
            r.value.labels[k] == entries[k].0 && r.value.values[k] == entries[k].1.rejectionRate.value[period])
    decreases |entries|
  {
    if entries != [] {
      var front := entries[..|entries| - 1];
      ExtractEntriesOk(front, period);
      assert forall k :: 0 <= k < |front| ==> front[k] == entries[k];
    }
  }

  /** Reading several files succeeds exactly when each of them reads. */
  lemma {:induction false} ReadPathsOk<V>(files: map<string, PowerRecord<V>>, paths: seq<string>, period: string)
    ensures ReadPaths(files, paths, period).Ok? <==> forall f :: 0 <= f < |paths| ==> ReadFile(files, paths[f], period).Ok?
    decreases |paths|
  {
    if paths != [] {
      var front := paths[..|paths| - 1];
      ReadPathsOk(files, front, period);
      assert forall f :: 0 <= f < |front| ==> front[f] == paths[f];
    }
  }

  /** The two files of one column: norm first, then lnorm. */
  function ColumnPaths(dir: string, column: (string, string)): seq<string> {
    [Join(dir, column.0 + ".json"), Join(dir, column.1 + ".json")]
  }

  function ReadColumn<V>(files: map<string, PowerRecord<V>>, dir: string, column: (string, string), period: string): Result<Extracted<V>, Failure> {
    ReadPaths(files, ColumnPaths(dir, column), period)
  }

  /** What reading one column gives: its labels and rates, or the failure. */
  type ColumnRead<V> = Result<Extracted<V>, Failure>

  /** Reading each file column under `dir`. */
  function ReadColumns<V>(files: map<string, PowerRecord<V>>, dir: string, period: string, cols: seq<(string, string)>): (results: seq<ColumnRead<V>>)
    ensures |results| == |cols|
  {
    seq(|cols|, c requires 0 <= c < |cols| => ReadColumn(files, dir, cols[c], period))
  }

  predicate AllRead<V>(results: seq<ColumnRead<V>>) {
    forall c :: 0 <= c < |results| ==> results[c].Ok?
  }

  /** Every column read holds one rate per label. */
  predicate Lockstep<V>(results: seq<ColumnRead<V>>) {
    forall c :: 0 <= c < |results| && results[c].Ok? ==> |results[c].value.labels| == |results[c].value.values|
  }

  lemma ReadColumnsLockstep<V>(files: map<string, PowerRecord<V>>, dir: string, period: string, cols: seq<(string, string)>)
    ensures Lockstep(ReadColumns(files, dir, period, cols))
  {
  }

  /** Reading one more path appends its labels and values after those already read. */
  lemma ReadPathsSnoc<V>(files: map<string, PowerRecord<V>>, paths: seq<string>, path: string, period: string)
    ensures var front := ReadPaths(files, paths, period);
            var last := ReadFile(files, path, period);
            ReadPaths(files, paths + [path], period) ==
              if front.Err? then Err(front.error)
              else if last.Err? then Err(last.error)
              else Ok(Extracted(front.value.labels + last.value.labels, front.value.values + last.value.values))
  {
    assert (paths + [path])[..|paths|] == paths;
  }

  /** A column holds the norm file's entries followed by the lnorm file's, label and value alike. */
  lemma ReadColumnOrder<V>(files: map<string, PowerRecord<V>>, dir: string, column: (string, string), period: string)
    ensures var norm := ReadFile(files, Join(dir, column.0 + ".json"), period);
            var lnorm := ReadFile(files, Join(dir, column.1 + ".json"), period);
            ReadColumn(files, dir, column, period) ==
              if norm.Err? then Err(norm.error)
              else if lnorm.Err? then Err(lnorm.error)
              else Ok(Extracted(norm.value.labels + lnorm.value.labels, norm.value.values + lnorm.value.values))
  {
    var p0, p1 := Join(dir, column.0 + ".json"), Join(dir, column.1 + ".json");
    ReadPathsSnoc(files, [], p0, period);
    assert [] + [p0] == [p0];
    ReadPathsSnoc(files, [p0], p1, period);
    assert [p0] + [p1] == ColumnPaths(dir, column);
    var norm := ReadFile(files, p0, period);
    if norm.Ok? {
      assert [] + norm.value.labels == norm.value.labels;
      assert [] + norm.value.values == norm.value.values;
    }
  }

  /** Once a prefix of the entries fails, the whole walk fails the same way. */
  lemma {:induction false} ExtractEntriesErrExtends<V>(entries: seq<(string, ParameterEntry<V>)>, j: nat, period: string)
    requires j <= |entries|
    requires ExtractEntries(entries[..j], period).Err?
    ensures ExtractEntries(entries, period) == ExtractEntries(entries[..j], period)
    decreases |entries| - j
  {
    if j < |entries| {
      var shorter := entries[..|entries| - 1];
      TakeTake(entries, j, |entries| - 1);
      ExtractEntriesErrExtends(shorter, j, period);
    } else {
      TakeAll(entries);
    }
  }

  /** Once a prefix of the paths fails, reading all of them fails the same way. */
  lemma {:induction false} ReadPathsErrExtends<V>(files: map<string, PowerRecord<V>>, paths: seq<string>, j: nat, period: string)
    requires j <= |paths|
    requires ReadPaths(files, paths[..j], period).Err?
    ensures ReadPaths(files, paths, period) == ReadPaths(files, paths[..j], period)
    decreases |paths| - j
  {
    if j < |paths| {
      var shorter := paths[..|paths| - 1];
      TakeTake(paths, j, |paths| - 1);
      ReadPathsErrExtends(files, shorter, j, period);
    } else {
      TakeAll(paths);
    }
  }

  /** The first file that cannot be read decides the failure of reading them all. */
  lemma FileFails<V>(files: map<string, PowerRecord<V>>, paths: seq<string>, f: nat, period: string)
    requires f < |paths|
    requires ReadPaths(files, paths[..f], period).Ok?
    requires ReadFile(files, paths[f], period).Err?
    ensures ReadPaths(files, paths, period) == Err(ReadFile(files, paths[f], period).error)
  {
    TakeTake(paths, f, f + 1);
    ReadPathsErrExtends(files, paths, f + 1, period);
  }

  /**
   * Loading one file and walking its `power` object, appending each label
   * before looking up its rate.
   */
  method ReadPowerFile<V>(files: map<string, PowerRecord<V>>, filename: string, period: string)
    returns (res: Result<Extracted<V>, Failure>)
    ensures res == ReadFile(files, filename, period)
  {
    if filename !in files {
      return Err(FileNotFound(filename));
    }
    var record := files[filename];
    if record.power.None? {
      return Err(KeyError(KeyPower));
    }
    var power := record.power.value;
    var rownames: seq<string> := [];
    var data: seq<V> := [];
    for k := 0 to |power|
      invariant ExtractEntries(power[..k], period) == Ok(Extracted(rownames, data))
    {
      var (parameters, entry) := power[k];
      TakeTake(power, k, k + 1);
      rownames := rownames + [parameters];
      if entry.rejectionRate.None? {
        ExtractEntriesErrExtends(power, k + 1, period);
        return Err(KeyError(KeyRejectionRate));
      }
      var rejectionRate := entry.rejectionRate.value;
      if period !in rejectionRate {
        ExtractEntriesErrExtends(power, k + 1, period);
        return Err(KeyError(period));
      }
      data := data + [rejectionRate[period]];
    }
    TakeAll(power);
    return Ok(Extracted(rownames, data));
  }

  /** Reading one column: the norm file's entries, then the lnorm file's. */
  method ReadColumnFiles<V>(files: map<string, PowerRecord<V>>, dir: string, column: (string, string), period: string)
    returns (res: Result<Extracted<V>, Failure>)
    ensures res == ReadColumn(files, dir, column, period)
  {
    ghost var paths := ColumnPaths(dir, column);
    var rownames: seq<string> := [];
    var data: seq<V> := [];
    for f := 0 to 2
      invariant ReadPaths(files, paths[..f], period) == Ok(Extracted(rownames, data))
    {
      var filename := Join(dir, (if f == 0 then column.0 else column.1) + ".json");
      assert filename == paths[f];
      var file := ReadPowerFile(files, filename, period);
      if file.Err? {
        assert ReadPaths(files, paths, period) == Err(file.error) by {
          FileFails(files, paths, f, period);
        }
        return Err(file.error);
      }
      assert ReadPaths(files, paths[..f + 1], period) ==
             Ok(Extracted(rownames + file.value.labels, data + file.value.values)) by {
        ReadPathsSnoc(files, paths[..f], filename, period);
        assert paths[..f] + [filename] == paths[..f + 1];
      }
      rownames := rownames + file.value.labels;
      data := data + file.value.values;
    }
    assert paths[..2] == paths;
    return Ok(Extracted(rownames, data));
  }
}
