/**
 * The run plans of the baseline-subtracting simulation script: every option
 * string starts with the basic settings `-r`, one-sided runs go to a
 * `one-sided-` directory with `-u 1`, and the type-I-error table lists the
 * six methods with a one-sided and a two-sided row per GPC method.
 */
module RunSimulations {
  import opened PyText
  import opened Slices
  import opened Simulation
  import opened Plans
  import AllTables = ReproduceAllTables

  /** The basic settings as written: the baseline flag, with nothing separating it from the options that follow. */
  const BasicSettings := "-r"

  // ---------------------------------------------------------------------------
  // Power table
  // ---------------------------------------------------------------------------

  function PowerSubdir(m: string, oneSided: bool): (r: string)
    ensures EndsWith(r, m)
    ensures |r| == |m| + (if oneSided then 10 else 0)
  {
    assert ("one-sided-" + m)[10..] == m;
    if oneSided then "one-sided-" + m else m
  }

  function PowerExtraArgs(oneSided: bool): string {
    if oneSided then "-u 1" else ""
  }

  function PowerDir(m: string, oneSided: bool): string {
    Join(DirRawOutput, PowerSubdir(m, oneSided))
  }

  function PowerRun(m: string, oneSided: bool): Run {
    Run(m, PowerSimulations(BasicSettings), PowerDir(m, oneSided), PowerExtraArgs(oneSided))
  }

  /** One segment per method, in method order. */
  function PowerSegments(methods: seq<string>, period: string, oneSided: bool): seq<Segment> {
    seq(|methods|, i requires 0 <= i < |methods| => Segment(PowerDir(methods[i], oneSided), period))
  }

  /** One power run per method when simulations are requested, none otherwise. */
  function PowerRuns(methods: seq<string>, runSimulations: bool, oneSided: bool): seq<Run> {
    if runSimulations then seq(|methods|, i requires 0 <= i < |methods| => PowerRun(methods[i], oneSided))
    else []
  }

  lemma PowerSegmentsSnoc(methods: seq<string>, i: nat, period: string, oneSided: bool)
    requires i < |methods|
    ensures PowerSegments(methods[..i + 1], period, oneSided)
         == PowerSegments(methods[..i], period, oneSided) + [Segment(PowerDir(methods[i], oneSided), period)]
  {
  }

  lemma PowerRunsSnoc(methods: seq<string>, i: nat, oneSided: bool)
    requires i < |methods|
    ensures PowerRuns(methods[..i + 1], true, oneSided) == PowerRuns(methods[..i], true, oneSided) + [PowerRun(methods[i], oneSided)]
  {
  }

  /** `generate_power_table`, up to the segments handed to the writer. */
  method GeneratePowerTable(methods: seq<string>, period: string, runSimulations: bool, oneSided: bool)
    returns (segments: seq<Segment>, runs: seq<Run>)
    ensures segments == PowerSegments(methods, period, oneSided)
    ensures runs == PowerRuns(methods, runSimulations, oneSided)
  {
    segments := [];
    runs := [];
    for i := 0 to |methods|
      invariant segments == PowerSegments(methods[..i], period, oneSided)
      invariant runs == PowerRuns(methods[..i], runSimulations, oneSided)
    {
      var m := methods[i];
      var extraArgs, subdir;
      if oneSided {
        extraArgs := "-u 1";
        subdir := "one-sided-" + m;
      } else {
        extraArgs := "";
        subdir := m;
      }
      var rawOutputDir := Join(DirRawOutput, subdir);
      PowerSegmentsSnoc(methods, i, period, oneSided);
      if runSimulations {
        PowerRunsSnoc(methods, i, oneSided);
        var run := Run(m, PowerSimulations(BasicSettings), rawOutputDir, extraArgs);
        Launch(run);
        runs := runs + [run];
      }
      segments := segments + [Segment(rawOutputDir, period)];
    }
    TakeAll(methods);
  }

  /** The power runs pass `-u 1` when one-sided and nothing otherwise. */
  lemma PowerExtraArgsTokens(oneSided: bool)
    ensures Split(PowerExtraArgs(oneSided)) == if oneSided then ["-u", "1"] else []
  {
    if oneSided {
      UnitTokens();
    }
  }

  /**
   * Distinct methods with the same sidedness, and the two sidednesses of one
   * method, get distinct output directories.
   */
  lemma PowerDirDistinct(m1: string, m2: string, os1: bool, os2: bool)
    ensures m1 != m2 ==> PowerDir(m1, os1) != PowerDir(m2, os1)
    ensures os1 != os2 ==> PowerDir(m1, os1) != PowerDir(m1, os2)
  {
    if m1 != m2 {
      var p := if os1 then "one-sided-" else "";
      assert PowerSubdir(m1, os1) == p + m1 && PowerSubdir(m2, os1) == p + m2;
      assert (p + m1)[|p|..] == m1 && (p + m2)[|p|..] == m2;
      JoinInjective(DirRawOutput, p + m1, p + m2);
    }
    if os1 != os2 {
      assert |PowerSubdir(m1, true)| == |PowerSubdir(m1, false)| + 10;
      JoinInjective(DirRawOutput, PowerSubdir(m1, os1), PowerSubdir(m1, os2));
    }
  }

  /**
   * The directories are those the all-tables script uses without baseline
   * adjustment: the results of either script replace the other's.
   */
  lemma PowerDirsSharedWithAllTables(m: string, oneSided: bool)
    ensures PowerDir(m, oneSided) == AllTables.PowerDir(m, oneSided, false)
  {
    assert AllTables.PowerSubdir(m, oneSided, false) == "" + PowerSubdir(m, oneSided);
  }

  /**
   * Each segment reads the directory its method's run writes, for the period
   * asked; without simulations nothing runs.
   */
  lemma PowerPlanShape(methods: seq<string>, period: string, runSimulations: bool, oneSided: bool)
    ensures var segs := PowerSegments(methods, period, oneSided);
            var runs := PowerRuns(methods, runSimulations, oneSided);
            && |segs| == |methods|
            && (forall i :: 0 <= i < |segs| ==> segs[i].period == period)
            && (!runSimulations ==> runs == [])
            && (runSimulations ==>
                  && |runs| == |methods|
                  && forall i :: 0 <= i < |runs| ==> runs[i].methodName == methods[i] && runs[i].outputDir == segs[i].rawOutputDir)
  {
  }

  // ---------------------------------------------------------------------------
  // Type-I-error table
  // ---------------------------------------------------------------------------

  /** The one-sided type-I-error directory is that of the one-sided power runs. */
  function OneSidedSubdir(m: string): (r: string)
    ensures r == PowerSubdir(m, true)
  {
    "one-sided-" + m
  }

  /** The rows one method contributes: nparLD twice from one run, a GPC method one-sided then two-sided. */
  function MethodRows(m: string): (r: seq<AlphaRow>)
    ensures |r| == 2
    ensures forall k :: 0 <= k < |r| ==> |r[k].files| == 2
  {
    if m == Nparld then NparldRows(AlphaFiles(BasicSettings, m))
    else [OneSidedRow(m, AlphaFiles(BasicSettings, OneSidedSubdir(m))), TwoSidedRow(m, AlphaFiles(BasicSettings, m))]
  }

  /** The runs one method launches, in launch order; only the one-sided run has extra arguments. */
  function MethodRuns(m: string): (r: seq<Run>)
    ensures |r| == if m == Nparld then 1 else 2
    ensures forall k :: 0 <= k < |r| ==> r[k].methodName == m && r[k].settings == AlphaErrorSimulations(BasicSettings)
  {
    var two := Run(m, AlphaErrorSimulations(BasicSettings), Join(DirRawOutput, m), "");
    if m == Nparld then [two]
    else [Run(m, AlphaErrorSimulations(BasicSettings), Join(DirRawOutput, OneSidedSubdir(m)), "-u 1"), two]
  }

  function RowGroups(methods: seq<string>): seq<seq<AlphaRow>> {
    seq(|methods|, i requires 0 <= i < |methods| => MethodRows(methods[i]))
  }

  function RunGroups(methods: seq<string>): seq<seq<Run>> {
    seq(|methods|, i requires 0 <= i < |methods| => MethodRuns(methods[i]))
  }

  function AlphaPlan(methods: seq<string>): seq<AlphaRow> {
    Flatten(RowGroups(methods))
  }

  function AlphaRuns(methods: seq<string>): seq<Run> {
    Flatten(RunGroups(methods))
  }

  /** One iteration of `generate_alpha_error_table`'s loop: the runs, then the rows. */
  method AddMethod(m: string, rawFileRows: seq<seq<string>>, periods: seq<string>, rownames: seq<string>, runs: seq<Run>)
    returns (rawFileRows': seq<seq<string>>, periods': seq<string>, rownames': seq<string>, runs': seq<Run>)
    ensures var rows := MethodRows(m);
            && rawFileRows' == rawFileRows + FileRows(rows)
            && periods' == periods + Periods(rows)
            && rownames' == rownames + Rownames(rows)
    ensures runs' == runs + MethodRuns(m)
  {
    if m == Nparld {
      rawFileRows', periods', rownames', runs' := AddNparld(m, BasicSettings, m, "", rawFileRows, periods, rownames, runs);
    } else {
      rawFileRows', periods', rownames', runs' := AddGpc(m, BasicSettings, m, "one-sided-" + m, "", "-u 1", true, rawFileRows, periods, rownames, runs);
      ghost var rows := MethodRows(m);
      assert rows == [rows[0]] + [rows[1]];
      ghost var mruns := MethodRuns(m);
      assert mruns == [mruns[0]] + [mruns[1]];
    }
  }

  /** `generate_alpha_error_table`, up to the three parallel lists handed to the assembler. */
  method GenerateAlphaErrorTable() returns (rawFileRows: seq<seq<string>>, periods: seq<string>, rownames: seq<string>, runs: seq<Run>)
    ensures var rows := AlphaPlan(AlphaMethods);
            && |rawFileRows| == |periods| == |rownames| == |rows| == 12
            && rawFileRows == FileRows(rows) && periods == Periods(rows) && rownames == Rownames(rows)
    ensures runs == AlphaRuns(AlphaMethods)
  {
    var methods := AlphaMethods;
    rawFileRows, periods, rownames, runs := PlanMethods(methods);
    AlphaPlanCounts();
  }

  /** The method loop over a given method list. */
  method PlanMethods(ms: seq<string>) returns (rawFileRows: seq<seq<string>>, periods: seq<string>, rownames: seq<string>, runs: seq<Run>)
    ensures var rows := AlphaPlan(ms);
            && |rawFileRows| == |periods| == |rownames| == |rows|
            && rawFileRows == FileRows(rows) && periods == Periods(rows) && rownames == Rownames(rows)
    ensures runs == AlphaRuns(ms)
  {
    ghost var groups := RowGroups(ms);
    ghost var runGroups := RunGroups(ms);
    rawFileRows, periods, rownames, runs := [], [], [], [];
    for i := 0 to |ms|
      invariant rawFileRows == FileRows(Flatten(groups[..i]))
      invariant periods == Periods(Flatten(groups[..i]))
      invariant rownames == Rownames(Flatten(groups[..i]))
      invariant runs == Flatten(runGroups[..i])
    {
      rawFileRows, periods, rownames, runs := AddMethod(ms[i], rawFileRows, periods, rownames, runs);
      FlattenSnoc(groups, i);
      FlattenSnoc(runGroups, i);
      ProjectionsAppend(Flatten(groups[..i]), groups[i]);
    }
    TakeAll(groups);
    TakeAll(runGroups);
  }

  /** Every method contributes exactly two rows. */
  lemma AlphaPlanLength(ms: seq<string>)
    ensures |AlphaPlan(ms)| == 2 * |ms|
  {
    var groups := RowGroups(ms);
    forall i | 0 <= i < |groups|
      ensures |groups[i]| == 2
    {
    }
    FlattenUniform(groups, 2);
  }

  /** The table has twelve rows. */
  lemma AlphaPlanCounts()
    ensures |AlphaPlan(AlphaMethods)| == 12
  {
    AlphaPlanLength(AlphaMethods);
  }

  /**
   * A GPC method's one-sided row reads the files of its `-u 1` run, the
   * two-sided row those of its run without extra arguments, both for the
   * combined period; the two runs write to different directories.
   */
  lemma GpcRowsReadRuns(m: string)
    requires m != Nparld
    ensures var rows := MethodRows(m);
            var runs := MethodRuns(m);
            && |rows| == |runs| == 2
            && (forall k :: 0 <= k < 2 ==>
                  rows[k].files == Outfiles(runs[k].outputDir, runs[k].settings) && rows[k].period == Combined)
            && rows[0].rowname == GpcRowname(m) + " one-sided"
            && rows[1].rowname == GpcRowname(m) + " two-sided"
            && runs[0].extraArgs == "-u 1" && runs[1].extraArgs == ""
            && runs[0].outputDir != runs[1].outputDir
  {
    assert |OneSidedSubdir(m)| == |m| + 10;
    JoinInjective(DirRawOutput, OneSidedSubdir(m), m);
  }

  // ---------------------------------------------------------------------------
  // The basic settings glued to the options
  // ---------------------------------------------------------------------------

  /** `-r` glued to options starting with `-t `: the two flags fuse into one token `-r-t`. */
  lemma GluedTokens(options: string)
    requires StartsWith(options, "-t ")
    ensures Split(options) == ["-t"] + Split(options[2..])
    ensures Split("-r" + options) == ["-r-t"] + Split(options[2..])
  {
    var rest := options[2..];
    assert options == "-t" + rest;
    assert "-r" + options == "-r-t" + rest;
    SpaceIsSpace();
    PrintableNoSpace("-t");
    SplitWord("-t", rest);
    PrintableNoSpace("-r-t");
    SplitWord("-r-t", rest);
  }

  /** The same for every option string of a list whose options all start with `-t `. */
  lemma GluedOptions(options: seq<string>)
    requires forall i :: 0 <= i < |options| ==> StartsWith(options[i], "-t ")
    ensures forall i :: 0 <= i < |options| ==>
      && 3 <= |options[i]|
      && Split(options[i]) == ["-t"] + Split(options[i][2..])
      && Split("-r" + options[i]) == ["-r-t"] + Split(options[i][2..])
  {
    forall i | 0 <= i < |options|
      ensures Split(options[i]) == ["-t"] + Split(options[i][2..])
      ensures Split("-r" + options[i]) == ["-r-t"] + Split(options[i][2..])
    {
      GluedTokens(options[i]);
    }
  }

  /**
   * As written, every run's first option token is `-r-t` where the options
   * alone start with the token `-t`: neither the baseline flag `-r` nor the
   * target flag `-t` reaches the program as such; the tokens after the first
   * are the same.
   */
  lemma BasicSettingsFuse()
    ensures forall i :: 0 <= i < 8 ==>
      && StartsWith(PowerOptions[i], "-t ")
      && Split(PowerOptions[i]) == ["-t"] + Split(PowerOptions[i][2..])
      && Split(PowerSimulations(BasicSettings)[i].0) == ["-r-t"] + Split(PowerOptions[i][2..])
    ensures forall i :: 0 <= i < 2 ==>
      && StartsWith(AlphaErrorOptions[i], "-t ")
      && Split(AlphaErrorOptions[i]) == ["-t"] + Split(AlphaErrorOptions[i][2..])
      && Split(AlphaErrorSimulations(BasicSettings)[i].0) == ["-r-t"] + Split(AlphaErrorOptions[i][2..])
  {
    OptionsStartWithTarget();
    GluedOptions(PowerOptions);
    GluedOptions(AlphaErrorOptions);
  }

  /** The basic settings followed by a space, as the options need them. */
  const CorrectedBasicSettings := "-r "

  /** With the separating space every run passes `-r` as its own token, followed by the options' tokens. */
  lemma CorrectedSettingsTokens()
    ensures forall i :: 0 <= i < 8 ==>
      Split(PowerSimulations(CorrectedBasicSettings)[i].0) == ["-r"] + Split(PowerOptions[i])
    ensures forall i :: 0 <= i < 2 ==>
      Split(AlphaErrorSimulations(CorrectedBasicSettings)[i].0) == ["-r"] + Split(AlphaErrorOptions[i])
  {
    forall i | 0 <= i < 8
      ensures Split(PowerSimulations(CorrectedBasicSettings)[i].0) == ["-r"] + Split(PowerOptions[i])
    {
      BaselineTokens(PowerOptions[i]);
    }
    forall i | 0 <= i < 2
      ensures Split(AlphaErrorSimulations(CorrectedBasicSettings)[i].0) == ["-r"] + Split(AlphaErrorOptions[i])
    {
      BaselineTokens(AlphaErrorOptions[i]);
    }
  }
}
