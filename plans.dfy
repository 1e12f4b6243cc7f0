/**
 * What the driver scripts hand to the table assemblers: one power-table
 * segment per method, and for the type-I-error table three parallel lists
 * (file rows, periods, row names) grown method by method. The pieces shared
 * by the three drivers live here.
 */
module Plans {
  import opened PyText
  import opened Slices
  import opened Simulation

  /** One row of the type-I-error plan: its two result files, the period read and the row name. */
  datatype AlphaRow = AlphaRow(files: seq<string>, period: string, rowname: string)

  /** The arguments of one power-table segment: the directory read and the period. */
  datatype Segment = Segment(rawOutputDir: string, period: string)

  const Nparld := "nparld"
  const NparldRowname := "nparLD two-sided Period "
  const Period1 := "period_1"
  const Period2 := "period_2"
  const Combined := "combined"

  /** The six methods of the type-I-error tables, in row order. */
  const AlphaMethods: seq<string> := [
    "nparld",
    "univariate-matched-gpc",
    "univariate-unmatched-gpc",
    "prioritized-matched-gpc",
    "prioritized-unmatched-gpc",
    "non-prioritized-unmatched-gpc"
  ]

  /** The result files of the two type-I-error runs of one output directory. */
  function AlphaFiles(basic: string, subdir: string): seq<string> {
    Outfiles(Join(DirRawOutput, subdir), AlphaErrorSimulations(basic))
  }

  /** The display name of a GPC method: hyphens become spaces, then `gpc` becomes `GPC`. */
  function GpcRowname(m: string): (r: string)
    ensures NoChar(r, '-')
    ensures |r| == |m|
  {
    ReplaceRemovesChar(m, '-', " ");
    assert "-" == ['-'];
    ReplaceKeepsAbsent(Replace(m, "-", " "), "gpc", "GPC", '-');
    Replace(Replace(m, "-", " "), "gpc", "GPC")
  }

  /** nparLD is read twice from the same files, once per period. */
  function NparldRows(outfiles: seq<string>): (r: seq<AlphaRow>)
    ensures |r| == 2 && r[0].files == outfiles && r[1].files == outfiles
    ensures r[0].period == Period1 && r[1].period == Period2
    ensures r[0].rowname != r[1].rowname
  {
    assert (NparldRowname + "1")[|NparldRowname|] == '1';
    [AlphaRow(outfiles, Period1, NparldRowname + "1"), AlphaRow(outfiles, Period2, NparldRowname + "2")]
  }

  function OneSidedRow(m: string, outfiles: seq<string>): AlphaRow {
    AlphaRow(outfiles, Combined, GpcRowname(m) + " one-sided")
  }

  function TwoSidedRow(m: string, outfiles: seq<string>): AlphaRow {
    AlphaRow(outfiles, Combined, GpcRowname(m) + " two-sided")
  }

  /** nparLD: one run, whose files are read twice, for period 1 and for period 2. */
  method AddNparld(m: string, basic: string, subdir: string, extraArgs: string,
                   rawFileRows: seq<seq<string>>, periods: seq<string>, rownames: seq<string>, runs: seq<Run>)
    returns (rawFileRows': seq<seq<string>>, periods': seq<string>, rownames': seq<string>, runs': seq<Run>)
    ensures var rows := NparldRows(AlphaFiles(basic, subdir));
            && rawFileRows' == rawFileRows + FileRows(rows)
            && periods' == periods + Periods(rows)
            && rownames' == rownames + Rownames(rows)
    ensures runs' == runs + [Run(m, AlphaErrorSimulations(basic), Join(DirRawOutput, subdir), extraArgs)]
  {
    var settings := AlphaErrorSimulations(basic);
    var outputDir := Join(DirRawOutput, subdir);
    var outfiles, _ := PerformSimulations(m, settings, outputDir, extraArgs);
    runs' := runs + [Run(m, settings, outputDir, extraArgs)];
    rawFileRows' := rawFileRows + [outfiles, outfiles];
    var rname := NparldRowname;
    rownames' := rownames + [rname + "1", rname + "2"];
    periods' := periods + [Period1, Period2];
    NparldRowsLists(outfiles);
  }

  /** A GPC method: the one-sided run and row if asked for, then the two-sided run and row. */
  method AddGpc(m: string, basic: string, subdir: string, osSubdir: string, extraArgs: string, osExtraArgs: string, addOneSided: bool,
                rawFileRows: seq<seq<string>>, periods: seq<string>, rownames: seq<string>, runs: seq<Run>)
    returns (rawFileRows': seq<seq<string>>, periods': seq<string>, rownames': seq<string>, runs': seq<Run>)
    ensures var rows := (if addOneSided then [OneSidedRow(m, AlphaFiles(basic, osSubdir))] else [])
                        + [TwoSidedRow(m, AlphaFiles(basic, subdir))];
            && rawFileRows' == rawFileRows + FileRows(rows)
            && periods' == periods + Periods(rows)
            && rownames' == rownames + Rownames(rows)
    ensures runs' == runs
      + (if addOneSided then [Run(m, AlphaErrorSimulations(basic), Join(DirRawOutput, osSubdir), osExtraArgs)] else [])
      + [Run(m, AlphaErrorSimulations(basic), Join(DirRawOutput, subdir), extraArgs)]
  {
    var settings := AlphaErrorSimulations(basic);
    var rname := GpcRowname(m);
    ghost var oneSidedRows: seq<AlphaRow> := [];
    rawFileRows', periods', rownames', runs' := rawFileRows, periods, rownames, runs;
    if addOneSided {
      var oneSidedOutputDir := Join(DirRawOutput, osSubdir);
      var oneSidedOutfiles, _ := PerformSimulations(m, settings, oneSidedOutputDir, osExtraArgs);
      runs' := runs' + [Run(m, settings, oneSidedOutputDir, osExtraArgs)];
      rawFileRows' := rawFileRows' + [oneSidedOutfiles];
      rownames' := rownames' + [rname + " one-sided"];
      periods' := periods' + [Combined];
      oneSidedRows := [OneSidedRow(m, oneSidedOutfiles)];
      SingleRowLists(oneSidedRows[0]);
    }
    var twoSidedOutputDir := Join(DirRawOutput, subdir);
    var twoSidedOutfiles, _ := PerformSimulations(m, settings, twoSidedOutputDir, extraArgs);
    runs' := runs' + [Run(m, settings, twoSidedOutputDir, extraArgs)];
    rawFileRows' := rawFileRows' + [twoSidedOutfiles];
    rownames' := rownames' + [rname + " two-sided"];
    periods' := periods' + [Combined];
    var twoSided := TwoSidedRow(m, twoSidedOutfiles);
    SingleRowLists(twoSided);
    ProjectionsAppend(oneSidedRows, [twoSided]);
  }

  /** The concatenation of the groups in order. */
  function Flatten<T>(xss: seq<seq<T>>): seq<T>
    decreases |xss|
  {
    if xss == [] then [] else Flatten(xss[..|xss| - 1]) + xss[|xss| - 1]
  }

  /** The three parallel lists handed to the assembler. */
  function FileRows(rows: seq<AlphaRow>): (fs: seq<seq<string>>)
    ensures |fs| == |rows|
  {
    seq(|rows|, i requires 0 <= i < |rows| => rows[i].files)
  }

  function Periods(rows: seq<AlphaRow>): (ps: seq<string>)
    ensures |ps| == |rows|
  {
    seq(|rows|, i requires 0 <= i < |rows| => rows[i].period)
  }

  function Rownames(rows: seq<AlphaRow>): (ns: seq<string>)
    ensures |ns| == |rows|
  {
    seq(|rows|, i requires 0 <= i < |rows| => rows[i].rowname)
  }

  /** Growing the rows grows each of the three lists by the new rows' entries. */
  lemma ProjectionsAppend(a: seq<AlphaRow>, b: seq<AlphaRow>)
    ensures FileRows(a + b) == FileRows(a) + FileRows(b)
    ensures Periods(a + b) == Periods(a) + Periods(b)
    ensures Rownames(a + b) == Rownames(a) + Rownames(b)
  {
    assert FileRows(a + b) == FileRows(a) + FileRows(b);
    assert Periods(a + b) == Periods(a) + Periods(b);
    assert Rownames(a + b) == Rownames(a) + Rownames(b);
  }

  /** The lists of the two nparLD rows. */
  lemma NparldRowsLists(outfiles: seq<string>)
    ensures FileRows(NparldRows(outfiles)) == [outfiles, outfiles]
    ensures Periods(NparldRows(outfiles)) == [Period1, Period2]
    ensures Rownames(NparldRows(outfiles)) == [NparldRowname + "1", NparldRowname + "2"]
  {
  }

  /** The lists of a single row. */
  lemma SingleRowLists(r: AlphaRow)
    ensures FileRows([r]) == [r.files] && Periods([r]) == [r.period] && Rownames([r]) == [r.rowname]
  {
  }

  /** Adding one more group extends the flattened list by that group. */
  lemma FlattenSnoc<T>(xss: seq<seq<T>>, n: nat)
    requires n < |xss|
    ensures Flatten(xss[..n + 1]) == Flatten(xss[..n]) + xss[n]
  {
    TakeTake(xss, n, n + 1);
  }

  /** Groups of equal size k flatten to k times as many elements. */
  lemma {:induction false} FlattenUniform<T>(xss: seq<seq<T>>, k: nat)
    requires forall i :: 0 <= i < |xss| ==> |xss[i]| == k
    ensures |Flatten(xss)| == k * |xss|
    decreases |xss|
  {
    if xss != [] {
      var front := xss[..|xss| - 1];
      assert forall i :: 0 <= i < |front| ==> front[i] == xss[i];
      FlattenUniform(front, k);
      assert k * |xss| == k * |front| + k;
    }
  }

  /** Every element of the flattened list comes from some group. */
  lemma {:induction false} FlattenMember<T>(xss: seq<seq<T>>, x: T)
    requires x in Flatten(xss)
    ensures exists i :: 0 <= i < |xss| && x in xss[i]
    decreases |xss|
  {
    var n := |xss| - 1;
    if x in xss[n] {
    } else {
      assert x in Flatten(xss[..n]);
      FlattenMember(xss[..n], x);
      var i :| 0 <= i < n && x in xss[..n][i];
      assert xss[..n][i] == xss[i];
    }
  }

  /**
   * The type-I-error file row of an output directory lists the pruritus file
   * first and the pain file second, both inside that directory.
   */
  lemma AlphaFilesOrder(basic: string, subdir: string)
    ensures var fs := AlphaFiles(basic, subdir);
            && |fs| == 2
            && EndsWith(fs[0], RawFile(SubdirPruritus, SubdirNoEffect, OutfileAlphaError))
            && EndsWith(fs[1], RawFile(SubdirPain, SubdirNoEffect, OutfileAlphaError))
            && StartsWith(fs[0], Join(DirRawOutput, subdir))
            && StartsWith(fs[1], Join(DirRawOutput, subdir))
  {
    var dir := Join(DirRawOutput, subdir);
    var pruritus := RawFile(SubdirPruritus, SubdirNoEffect, OutfileAlphaError);
    var pain := RawFile(SubdirPain, SubdirNoEffect, OutfileAlphaError);
    JoinShape(SubdirPruritus, SubdirNoEffect);
    JoinShape(SubdirPruritus + "/" + SubdirNoEffect, OutfileAlphaError);
    JoinShape(SubdirPain, SubdirNoEffect);
    JoinShape(SubdirPain + "/" + SubdirNoEffect, OutfileAlphaError);
    assert pruritus[0] == 'p' && pain[0] == 'p';
    JoinShape(dir, pruritus);
    JoinShape(dir, pain);
  }

  /** The two rows a method contributes never share a name. */
  lemma RownamesPerMethodDistinct(m: string, f1: seq<string>, f2: seq<string>, g: seq<string>)
    ensures OneSidedRow(m, f1).rowname != TwoSidedRow(m, f2).rowname
    ensures NparldRows(g)[0].rowname != NparldRows(g)[1].rowname
  {
    var n := GpcRowname(m);
    assert (n + " one-sided")[|n| + 1] == 'o';
    assert (n + " two-sided")[|n| + 1] == 't';
    assert (NparldRowname + "1")[|NparldRowname|] == '1';
  }
}
