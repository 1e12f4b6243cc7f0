/**
 * The run plans of the all-tables reproduction script. Directory names carry
 * their options as prefixes (`baseline_adjusted__`, `one-sided-`) instead of
 * suffixes, the type-I-error table always lists the six methods with a
 * one-sided and a two-sided row per GPC method, and no extra dataset exists.
 */
module ReproduceAllTables {
  import opened PyText
  import opened Slices
  import opened Simulation
  import opened Plans

  const BasicSettings := ""

  /** The prefix baseline adjustment puts in front of a directory name. */
  function BaselinePrefix(baseline: bool): string {
    if baseline then "baseline_adjusted__" else ""
  }

  /** The baseline flag; its trailing space is kept, as the arguments are split on whitespace. */
  function BaselineArgs(baseline: bool): string {
    if baseline then "-r " else ""
  }

  // ---------------------------------------------------------------------------
  // Power table
  // ---------------------------------------------------------------------------

  /** The power output directory: the baseline prefix, then the one-sided prefix, then the method. */
  function PowerSubdir(m: string, oneSided: bool, baseline: bool): (r: string)
    ensures |r| == |m| + (if baseline then 19 else 0) + (if oneSided then 10 else 0)
  {
    var dir := BaselinePrefix(baseline) + (if oneSided then "one-sided-" + m else m);
    assert dir[|dir| - |m|..] == m;
    dir
  }

  function PowerExtraArgs(oneSided: bool, baseline: bool): string {
    BaselineArgs(baseline) + (if oneSided then "-u 1" else "")
  }

  function PowerDir(m: string, oneSided: bool, baseline: bool): string {
    Join(DirRawOutput, PowerSubdir(m, oneSided, baseline))
  }

  function PowerRun(m: string, oneSided: bool, baseline: bool): Run {
    Run(m, PowerSimulations(BasicSettings), PowerDir(m, oneSided, baseline), PowerExtraArgs(oneSided, baseline))
  }

  /** One segment per method, in method order. */
  function PowerSegments(methods: seq<string>, period: string, oneSided: bool, baseline: bool): seq<Segment> {
    seq(|methods|, i requires 0 <= i < |methods| => Segment(PowerDir(methods[i], oneSided, baseline), period))
  }

  /** One power run per method when simulations are requested, none otherwise. */
  function PowerRuns(methods: seq<string>, runSimulations: bool, oneSided: bool, baseline: bool): seq<Run> {
    if runSimulations then seq(|methods|, i requires 0 <= i < |methods| => PowerRun(methods[i], oneSided, baseline))
    else []
  }

  lemma PowerSegmentsSnoc(methods: seq<string>, i: nat, period: string, oneSided: bool, baseline: bool)
    requires i < |methods|
    ensures PowerSegments(methods[..i + 1], period, oneSided, baseline)
         == PowerSegments(methods[..i], period, oneSided, baseline) + [Segment(PowerDir(methods[i], oneSided, baseline), period)]
  {
  }

  lemma PowerRunsSnoc(methods: seq<string>, i: nat, oneSided: bool, baseline: bool)
    requires i < |methods|
    ensures PowerRuns(methods[..i + 1], true, oneSided, baseline)
         == PowerRuns(methods[..i], true, oneSided, baseline) + [PowerRun(methods[i], oneSided, baseline)]
  {
  }

  /** The naming at the top of `generate_power_table`'s loop: one-sidedness first, then the baseline prefix. */
  method PowerNaming(m: string, oneSided: bool, baseline: bool) returns (subdir: string, extraArgs: string)
    ensures subdir == PowerSubdir(m, oneSided, baseline)
    ensures extraArgs == PowerExtraArgs(oneSided, baseline)
  {
    if oneSided {
      extraArgs := "-u 1";
      subdir := "one-sided-" + m;
    } else {
      extraArgs := "";
      subdir := m;
    }
    if baseline {
      extraArgs := "-r " + extraArgs;
      subdir := "baseline_adjusted__" + subdir;
    }
  }

  /** `generate_power_table`, up to the segments handed to the writer. */
  method GeneratePowerTable(methods: seq<string>, period: string, runSimulations: bool, oneSided: bool, baseline: bool)
    returns (segments: seq<Segment>, runs: seq<Run>)
    ensures segments == PowerSegments(methods, period, oneSided, baseline)
    ensures runs == PowerRuns(methods, runSimulations, oneSided, baseline)
  {
    segments := [];
    runs := [];
    for i := 0 to |methods|
      invariant segments == PowerSegments(methods[..i], period, oneSided, baseline)
      invariant runs == PowerRuns(methods[..i], runSimulations, oneSided, baseline)
    {
      var m := methods[i];
      var subdir, extraArgs := PowerNaming(m, oneSided, baseline);
      var rawOutputDir := Join(DirRawOutput, subdir);
      PowerSegmentsSnoc(methods, i, period, oneSided, baseline);
      if runSimulations {
        PowerRunsSnoc(methods, i, oneSided, baseline);
        var run := Run(m, PowerSimulations(BasicSettings), rawOutputDir, extraArgs);
        Launch(run);
        runs := runs + [run];
      }
      segments := segments + [Segment(rawOutputDir, period)];
    }
    TakeAll(methods);
  }

  /** The power runs' extra arguments reach the program as `-r`, then `-u 1`, each only when set. */
  lemma PowerExtraArgsTokens(oneSided: bool, baseline: bool)
    ensures Split(PowerExtraArgs(oneSided, baseline)) ==
      (if baseline then ["-r"] else []) + (if oneSided then ["-u", "1"] else [])
  {
    var u := if oneSided then "-u 1" else "";
    if oneSided {
      UnitTokens();
    } else {
      assert Split(u) == [];
    }
    if baseline {
      BaselineTokens(u);
    } else {
      assert PowerExtraArgs(oneSided, baseline) == u;
    }
  }

  /** What the options put in front of the method's name. */
  function OptionsPrefix(oneSided: bool, baseline: bool): string {
    BaselinePrefix(baseline) + (if oneSided then "one-sided-" else "")
  }

  lemma PowerSubdirPrefix(m: string, oneSided: bool, baseline: bool)
    ensures PowerSubdir(m, oneSided, baseline) == OptionsPrefix(oneSided, baseline) + m
  {
    if oneSided {
      AppendAssoc(BaselinePrefix(baseline), "one-sided-", m);
    } else {
      AppendEmpty(BaselinePrefix(baseline));
    }
  }

  /**
   * Distinct methods under the same options, and distinct options for the same
   * method, give distinct output directories.
   */
  lemma PowerDirDistinct(m1: string, m2: string, os1: bool, bl1: bool, os2: bool, bl2: bool)
    ensures m1 != m2 ==> PowerDir(m1, os1, bl1) != PowerDir(m2, os1, bl1)
    ensures (os1, bl1) != (os2, bl2) ==> PowerDir(m1, os1, bl1) != PowerDir(m1, os2, bl2)
  {
    if m1 != m2 {
      var p := OptionsPrefix(os1, bl1);
      PowerSubdirPrefix(m1, os1, bl1);
      PowerSubdirPrefix(m2, os1, bl1);
      AppendCancel(p, m1, m2);
      JoinInjective(DirRawOutput, p + m1, p + m2);
    }
    if (os1, bl1) != (os2, bl2) {
      JoinInjective(DirRawOutput, PowerSubdir(m1, os1, bl1), PowerSubdir(m1, os2, bl2));
    }
  }

  /**
   * Each segment reads the directory its method's run writes, for the period
   * asked; without simulations nothing runs.
   */
  lemma PowerPlanShape(methods: seq<string>, period: string, runSimulations: bool, oneSided: bool, baseline: bool)
    ensures var segs := PowerSegments(methods, period, oneSided, baseline);
            var runs := PowerRuns(methods, runSimulations, oneSided, baseline);
            && |segs| == |methods|
            && (forall i :: 0 <= i < |segs| ==> segs[i].period == period)
            && (!runSimulations ==> runs == [])
            && (runSimulations ==>
                  && |runs| == |methods|
                  && forall i :: 0 <= i < |runs| ==> runs[i].methodName == methods[i] && runs[i].outputDir == segs[i].rawOutputDir)
  {
  }

  // ---------------------------------------------------------------------------
  // Type-I-error table
  // ---------------------------------------------------------------------------

  /** The two-sided directory: the baseline prefix, then the method, as for the two-sided power runs. */
  function AlphaSubdir(m: string, baseline: bool): (r: string)
    ensures r == PowerSubdir(m, false, baseline)
  {
    BaselinePrefix(baseline) + m
  }

  /**
   * The one-sided directory of a GPC method, written out as one literal per
   * case; it is the directory of the one-sided power runs.
   */
  function OneSidedSubdir(m: string, baseline: bool): (r: string)
    ensures r == PowerSubdir(m, true, baseline)
  {
    PrefixesText();
    AppendAssoc("baseline_adjusted__", "one-sided-", m);
    if baseline then "baseline_adjusted__one-sided-" + m else "one-sided-" + m
  }

  /** The rows one method contributes: nparLD twice from one run, a GPC method one-sided then two-sided. */
  function MethodRows(m: string, baseline: bool): (r: seq<AlphaRow>)
    ensures |r| == 2
    ensures forall k :: 0 <= k < |r| ==> |r[k].files| == 2
  {
    if m == Nparld then NparldRows(AlphaFiles(BasicSettings, AlphaSubdir(m, baseline)))
    else [OneSidedRow(m, AlphaFiles(BasicSettings, OneSidedSubdir(m, baseline))),
          TwoSidedRow(m, AlphaFiles(BasicSettings, AlphaSubdir(m, baseline)))]
  }

  /** The runs one method launches, in launch order; the one-sided run adds ` -u 1`. */
  function MethodRuns(m: string, baseline: bool): (r: seq<Run>)
    ensures |r| == if m == Nparld then 1 else 2
    ensures forall k :: 0 <= k < |r| ==> r[k].methodName == m && r[k].settings == AlphaErrorSimulations(BasicSettings)
  {
    var two := Run(m, AlphaErrorSimulations(BasicSettings), Join(DirRawOutput, AlphaSubdir(m, baseline)), BaselineArgs(baseline));
    if m == Nparld then [two]
    else [Run(m, AlphaErrorSimulations(BasicSettings), Join(DirRawOutput, OneSidedSubdir(m, baseline)), BaselineArgs(baseline) + " -u 1"), two]
  }

  function RowGroups(methods: seq<string>, baseline: bool): seq<seq<AlphaRow>> {
    seq(|methods|, i requires 0 <= i < |methods| => MethodRows(methods[i], baseline))
  }

  function RunGroups(methods: seq<string>, baseline: bool): seq<seq<Run>> {
    seq(|methods|, i requires 0 <= i < |methods| => MethodRuns(methods[i], baseline))
  }

  function AlphaPlan(methods: seq<string>, baseline: bool): seq<AlphaRow> {
    Flatten(RowGroups(methods, baseline))
  }

  function AlphaRuns(methods: seq<string>, baseline: bool): seq<Run> {
    Flatten(RunGroups(methods, baseline))
  }

  /**
   * The naming in `generate_alpha_error_table`'s loop: the baseline flag, the
   * two-sided directory and, for a GPC method, the one-sided directory.
   */
  method AlphaNaming(m: string, baseline: bool) returns (subdir: string, osSubdir: string, extraArgs: string)
    ensures subdir == AlphaSubdir(m, baseline)
    ensures osSubdir == OneSidedSubdir(m, baseline)
    ensures extraArgs == BaselineArgs(baseline)
  {
    if baseline {
      extraArgs := "-r ";
    } else {
      extraArgs := "";
    }
    if baseline {
      subdir := "baseline_adjusted__" + m;
      osSubdir := "baseline_adjusted__one-sided-" + m;
    } else {
      subdir := m;
      osSubdir := "one-sided-" + m;
    }
  }

  /** One iteration of `generate_alpha_error_table`'s loop: naming, the runs, then the rows. */
  method AddMethod(m: string, baseline: bool,
                   rawFileRows: seq<seq<string>>, periods: seq<string>, rownames: seq<string>, runs: seq<Run>)
    returns (rawFileRows': seq<seq<string>>, periods': seq<string>, rownames': seq<string>, runs': seq<Run>)
    ensures var rows := MethodRows(m, baseline);
            && rawFileRows' == rawFileRows + FileRows(rows)
            && periods' == periods + Periods(rows)
            && rownames' == rownames + Rownames(rows)
    ensures runs' == runs + MethodRuns(m, baseline)
  {
    var subdir, osSubdir, extraArgs := AlphaNaming(m, baseline);
    if m == Nparld {
      rawFileRows', periods', rownames', runs' := AddNparld(m, BasicSettings, subdir, extraArgs, rawFileRows, periods, rownames, runs);
    } else {
      rawFileRows', periods', rownames', runs' := AddGpc(m, BasicSettings, subdir, osSubdir, extraArgs, extraArgs + " -u 1", true, rawFileRows, periods, rownames, runs);
      ghost var rows := MethodRows(m, baseline);
      assert rows == [rows[0]] + [rows[1]];
      ghost var mruns := MethodRuns(m, baseline);
      assert mruns == [mruns[0]] + [mruns[1]];
    }
  }

  /** `generate_alpha_error_table`, up to the three parallel lists handed to the assembler. */
  method GenerateAlphaErrorTable(baseline: bool)
    returns (rawFileRows: seq<seq<string>>, periods: seq<string>, rownames: seq<string>, runs: seq<Run>)
    ensures var rows := AlphaPlan(AlphaMethods, baseline);
            && |rawFileRows| == |periods| == |rownames| == |rows| == 12
            && rawFileRows == FileRows(rows) && periods == Periods(rows) && rownames == Rownames(rows)
    ensures runs == AlphaRuns(AlphaMethods, baseline)
  {
    var methods := AlphaMethods;
    rawFileRows, periods, rownames, runs := PlanMethods(methods, baseline);
    AlphaPlanCounts(baseline);
  }

  /** The method loop over a given method list. */
  method PlanMethods(ms: seq<string>, baseline: bool)
    returns (rawFileRows: seq<seq<string>>, periods: seq<string>, rownames: seq<string>, runs: seq<Run>)
    ensures var rows := AlphaPlan(ms, baseline);
            && |rawFileRows| == |periods| == |rownames| == |rows|
            && rawFileRows == FileRows(rows) && periods == Periods(rows) && rownames == Rownames(rows)
    ensures runs == AlphaRuns(ms, baseline)
  {
    ghost var groups := RowGroups(ms, baseline);
    ghost var runGroups := RunGroups(ms, baseline);
    rawFileRows, periods, rownames, runs := [], [], [], [];
    for i := 0 to |ms|
      invariant rawFileRows == FileRows(Flatten(groups[..i]))
      invariant periods == Periods(Flatten(groups[..i]))
      invariant rownames == Rownames(Flatten(groups[..i]))
      invariant runs == Flatten(runGroups[..i])
    {
      rawFileRows, periods, rownames, runs := AddMethod(ms[i], baseline, rawFileRows, periods, rownames, runs);
      FlattenSnoc(groups, i);
      FlattenSnoc(runGroups, i);
      ProjectionsAppend(Flatten(groups[..i]), groups[i]);
    }
    TakeAll(groups);
    TakeAll(runGroups);
  }

  /** Every method, nparLD or GPC, contributes exactly two rows. */
  lemma AlphaPlanLength(ms: seq<string>, baseline: bool)
    ensures |AlphaPlan(ms, baseline)| == 2 * |ms|
  {
    var groups := RowGroups(ms, baseline);
    forall i | 0 <= i < |groups|
      ensures |groups[i]| == 2
    {
    }
    FlattenUniform(groups, 2);
  }

  /** The table has twelve rows. */
  lemma AlphaPlanCounts(baseline: bool)
    ensures |AlphaPlan(AlphaMethods, baseline)| == 12
  {
    AlphaPlanLength(AlphaMethods, baseline);
  }

  /**
   * A GPC method's one-sided row reads the files of its one-sided run, the
   * two-sided row those of the two-sided run, both for the combined period;
   * the one-sided run passes `-u 1` on top of the two-sided run's arguments.
   */
  lemma GpcRowsReadRuns(m: string, baseline: bool)
    requires m != Nparld
    ensures var rows := MethodRows(m, baseline);
            var runs := MethodRuns(m, baseline);
            && |rows| == |runs| == 2
            && (forall k :: 0 <= k < 2 ==>
                  rows[k].files == Outfiles(runs[k].outputDir, runs[k].settings) && rows[k].period == Combined)
            && rows[0].rowname == GpcRowname(m) + " one-sided"
            && rows[1].rowname == GpcRowname(m) + " two-sided"
            && runs[0].extraArgs == runs[1].extraArgs + " -u 1"
  {
  }

  /** The one-sided runs pass the two-sided runs' tokens followed by `-u 1`. */
  lemma OneSidedArgsTokens(baseline: bool)
    ensures Split(BaselineArgs(baseline) + " -u 1") == Split(BaselineArgs(baseline)) + ["-u", "1"]
  {
    UnitText();
    SplitAppendSpaced(BaselineArgs(baseline), "-u 1");
    UnitTokens();
  }

  /** The two-sided runs pass `-r` when baseline-adjusted and nothing otherwise. */
  lemma BaselineArgsTokens(baseline: bool)
    ensures Split(BaselineArgs(baseline)) == if baseline then ["-r"] else []
  {
    BaselineTokens("");
    BaselineText();
  }

  /** The one-sided and two-sided runs of a GPC method always write to different directories. */
  lemma OneSidedSeparate(m: string, baseline: bool)
    ensures Join(DirRawOutput, OneSidedSubdir(m, baseline)) != Join(DirRawOutput, AlphaSubdir(m, baseline))
  {
    assert |OneSidedSubdir(m, baseline)| == |AlphaSubdir(m, baseline)| + 10;
    JoinInjective(DirRawOutput, OneSidedSubdir(m, baseline), AlphaSubdir(m, baseline));
  }

  /** The one-sided baseline literal is the two prefixes in a row, stated once so that the directory proofs need not take literals apart. */
  lemma PrefixesText()
    ensures "baseline_adjusted__one-sided-" == "baseline_adjusted__" + "one-sided-"
  {
  }
}
