/**
 * The run plans of the reproduction script: which output directory each
 * method's simulations go to, with which extra arguments, and what is handed
 * to the power-table and type-I-error-table assemblers. An optional extra
 * dataset, one-sided testing and baseline adjustment each leave a mark on the
 * directory name and on the arguments.
 */
module Reproduce {
  import opened Wrappers
  import opened PyText
  import opened Slices
  import opened Simulation
  import opened Plans

  const BasicSettings := ""
  const DiacereinDataset := "./Diacerein_80-matched.txt"
  const DiacereinName := "Diacerein_80-matched"

  /** The methods of the restricted-dataset type-I-error table. */
  const Methods8: seq<string> := ["univariate-unmatched-gpc", "prioritized-unmatched-gpc", "non-prioritized-unmatched-gpc"]

  /** Python truthiness of the optional dataset: given and not empty. */
  predicate Truthy(dataset: Option<string>) {
    dataset.Some? && dataset.value != []
  }

  /** The dataset's file name without directory and extension. */
  function DatasetStem(path: string): string {
    Stem(Basename(path))
  }

  // ---------------------------------------------------------------------------
  // Power table
  // ---------------------------------------------------------------------------

  /** The marks each option leaves on a directory name. */
  function DatasetMark(dataset: Option<string>): string {
    if Truthy(dataset) then "__" + DatasetStem(dataset.value) else ""
  }

  function OneSidedMark(oneSided: bool): string {
    if oneSided then "__one-sided" else ""
  }

  function BaselineMark(baseline: bool): string {
    if baseline then "__baseline_adjusted" else ""
  }

  /** The arguments each option adds. */
  function DatasetArgs(dataset: Option<string>): string {
    if Truthy(dataset) then " -d " + dataset.value else ""
  }

  function OneSidedArgs(oneSided: bool): string {
    if oneSided then " -u 1" else ""
  }

  function BaselineArgs(baseline: bool): string {
    if baseline then " -r" else ""
  }

  /** The power output directory: the method, then the dataset, one-sided and baseline marks. */
  function PowerSubdir(m: string, dataset: Option<string>, oneSided: bool, baseline: bool): (r: string)
    ensures |r| >= |m|
    ensures |r| == |m| <==> !Truthy(dataset) && !oneSided && !baseline
  {
    m + DatasetMark(dataset) + OneSidedMark(oneSided) + BaselineMark(baseline)
  }

  function PowerExtraArgs(dataset: Option<string>, oneSided: bool, baseline: bool): string {
    DatasetArgs(dataset) + OneSidedArgs(oneSided) + BaselineArgs(baseline)
  }

  function PowerDir(m: string, dataset: Option<string>, oneSided: bool, baseline: bool): string {
    Join(DirRawOutput, PowerSubdir(m, dataset, oneSided, baseline))
  }

  /** The power run of one method. */
  function PowerRun(m: string, dataset: Option<string>, oneSided: bool, baseline: bool): Run {
    Run(m, PowerSimulations(BasicSettings), PowerDir(m, dataset, oneSided, baseline), PowerExtraArgs(dataset, oneSided, baseline))
  }

  /** One segment per method, in method order. */
  function PowerSegments(methods: seq<string>, period: string, dataset: Option<string>, oneSided: bool, baseline: bool): seq<Segment> {
    seq(|methods|, i requires 0 <= i < |methods| => Segment(PowerDir(methods[i], dataset, oneSided, baseline), period))
  }

  /** One power run per method when simulations are requested, none otherwise. */
  function PowerRuns(methods: seq<string>, runSimulations: bool, dataset: Option<string>, oneSided: bool, baseline: bool): seq<Run> {
    if runSimulations then seq(|methods|, i requires 0 <= i < |methods| => PowerRun(methods[i], dataset, oneSided, baseline))
    else []
  }

  /** Handling one more method appends its segment ... */
  lemma PowerSegmentsSnoc(methods: seq<string>, i: nat, period: string, dataset: Option<string>, oneSided: bool, baseline: bool)
    requires i < |methods|
    ensures PowerSegments(methods[..i + 1], period, dataset, oneSided, baseline)
         == PowerSegments(methods[..i], period, dataset, oneSided, baseline) + [Segment(PowerDir(methods[i], dataset, oneSided, baseline), period)]
  {
    var longer := PowerSegments(methods[..i + 1], period, dataset, oneSided, baseline);
    var shorter := PowerSegments(methods[..i], period, dataset, oneSided, baseline);
    forall k | 0 <= k < i
      ensures longer[k] == shorter[k]
    {
      assert methods[..i + 1][k] == methods[..i][k];
    }
    assert longer == shorter + [longer[i]];
  }

  /** ... and, when simulating, its run. */
  lemma PowerRunsSnoc(methods: seq<string>, i: nat, dataset: Option<string>, oneSided: bool, baseline: bool)
    requires i < |methods|
    ensures PowerRuns(methods[..i + 1], true, dataset, oneSided, baseline)
         == PowerRuns(methods[..i], true, dataset, oneSided, baseline) + [PowerRun(methods[i], dataset, oneSided, baseline)]
  {
  }

  /** The body of `generate_power_table`'s loop up to the directory: the option marks added one by one. */
  method PowerNaming(m: string, extraDataset: Option<string>, oneSided: bool, baseline: bool)
    returns (subdir: string, extraArgs: string)
    ensures subdir == PowerSubdir(m, extraDataset, oneSided, baseline)
    ensures extraArgs == PowerExtraArgs(extraDataset, oneSided, baseline)
  {
    extraArgs := "";
    subdir := m;
    subdir, extraArgs := AddDataset(subdir, extraArgs, extraDataset);
    AppendEmpty(DatasetArgs(extraDataset));
    subdir, extraArgs := AddOneSided(subdir, extraArgs, oneSided);
    subdir, extraArgs := AddBaseline(subdir, extraArgs, baseline);
  }

  /** The one-sided step of the naming: `-u 1` and the `__one-sided` mark. */
  method AddOneSided(subdir: string, extraArgs: string, oneSided: bool)
    returns (subdir': string, extraArgs': string)
    ensures subdir' == subdir + OneSidedMark(oneSided)
    ensures extraArgs' == extraArgs + OneSidedArgs(oneSided)
  {
    subdir', extraArgs' := subdir, extraArgs;
    if oneSided {
      extraArgs' := extraArgs' + " -u 1";
      subdir' := subdir' + "__one-sided";
    } else {
      AppendEmpty(subdir);
      AppendEmpty(extraArgs);
    }
  }

  /** The baseline step of the naming: `-r` and the `__baseline_adjusted` mark. */
  method AddBaseline(subdir: string, extraArgs: string, baseline: bool)
    returns (subdir': string, extraArgs': string)
    ensures subdir' == subdir + BaselineMark(baseline)
    ensures extraArgs' == extraArgs + BaselineArgs(baseline)
  {
    subdir', extraArgs' := subdir, extraArgs;
    if baseline {
      extraArgs' := extraArgs' + " -r";
      subdir' := subdir' + "__baseline_adjusted";
    } else {
      AppendEmpty(subdir);
      AppendEmpty(extraArgs);
    }
  }

  /** The extra-dataset step of the naming: `-d <dataset>` and the dataset's stem, when a dataset is given. */
  method AddDataset(subdir: string, extraArgs: string, extraDataset: Option<string>)
    returns (subdir': string, extraArgs': string)
    ensures subdir' == subdir + DatasetMark(extraDataset)
    ensures extraArgs' == extraArgs + DatasetArgs(extraDataset)
  {
    subdir', extraArgs' := subdir, extraArgs;
    if Truthy(extraDataset) {
      extraArgs' := extraArgs' + (" -d " + extraDataset.value);
      subdir' := subdir' + ("__" + Stem(Basename(extraDataset.value)));
    } else {
      AppendEmpty(subdir);
      AppendEmpty(extraArgs);
    }
  }

  /** `generate_power_table`, up to the segments handed to the writer. */
  method GeneratePowerTable(methods: seq<string>, period: string, runSimulations: bool, oneSided: bool, baseline: bool, extraDataset: Option<string>)
    returns (segments: seq<Segment>, runs: seq<Run>)
    ensures segments == PowerSegments(methods, period, extraDataset, oneSided, baseline)
    ensures runs == PowerRuns(methods, runSimulations, extraDataset, oneSided, baseline)
  {
    segments := [];
    runs := [];
    for i := 0 to |methods|
      invariant segments == PowerSegments(methods[..i], period, extraDataset, oneSided, baseline)
      invariant runs == PowerRuns(methods[..i], runSimulations, extraDataset, oneSided, baseline)
    {
      var m := methods[i];
      var subdir, extraArgs := PowerNaming(m, extraDataset, oneSided, baseline);
      var rawOutputDir := Join(DirRawOutput, subdir);
      PowerSegmentsSnoc(methods, i, period, extraDataset, oneSided, baseline);
      if runSimulations {
        PowerRunsSnoc(methods, i, extraDataset, oneSided, baseline);
        var run := Run(m, PowerSimulations(BasicSettings), rawOutputDir, extraArgs);
        Launch(run);
        runs := runs + [run];
      }
      segments := segments + [Segment(rawOutputDir, period)];
    }
    TakeAll(methods);
  }

  /**
   * The extra arguments reach the program as `-d <dataset>`, `-u 1`, `-r`,
   * each only when its option is set, in that order.
   */
  lemma PowerExtraArgsTokens(dataset: Option<string>, oneSided: bool, baseline: bool)
    ensures Split(PowerExtraArgs(dataset, oneSided, baseline)) ==
      (if Truthy(dataset) then ["-d"] + Split(dataset.value) else [])
      + (if oneSided then ["-u", "1"] else [])
      + (if baseline then ["-r"] else [])
  {
    var e0 := DatasetArgs(dataset);
    var e1 := e0 + OneSidedArgs(oneSided);
    if Truthy(dataset) {
      DatasetTokens(dataset.value);
    }
    if oneSided {
      UnitFlagTokens(e0);
    } else {
      assert e1 == e0;
    }
    if baseline {
      BaselineFlagTokens(e1);
    } else {
      assert PowerExtraArgs(dataset, oneSided, baseline) == e1;
    }
  }

  /** The dataset step's ` -d <path>` reaches the program as `-d` followed by the path's tokens. */
  lemma DatasetTokens(path: string)
    ensures Split(" -d " + path) == ["-d"] + Split(path)
  {
    var rest := "-d" + (" " + path);
    DatasetText(path);
    SplitAppendSpaced("", rest);
    AppendEmpty(" " + rest);
    DashDTokens(path);
  }

  /** ` -d ` in front of a path is a space, the flag, and a space before the path. */
  lemma DatasetText(path: string)
    ensures " -d " + path == " " + ("-d" + (" " + path))
  {
    DashDText();
    AppendAssoc(" " + "-d", " ", path);
    AppendAssoc(" ", "-d", " " + path);
  }

  /** How the literal ` -d ` splits into its parts, stated once so that the token proofs need not take literals apart. */
  lemma DashDText()
    ensures " -d " == " " + "-d" + " "
  {
  }

  /** The flag `-d` before a space and a path is one token followed by the path's tokens. */
  lemma DashDTokens(path: string)
    ensures Split("-d" + (" " + path)) == ["-d"] + Split(path)
  {
    SplitAppendSpaced("-d", path);
    PrintableNoSpace("-d");
    SingleWord("-d");
  }

  /** The one-sided step's ` -u 1` appends the tokens `-u`, `1` to whatever the arguments held. */
  lemma UnitFlagTokens(text: string)
    ensures Split(text + " -u 1") == Split(text) + ["-u", "1"]
  {
    UnitText();
    SplitAppendSpaced(text, "-u 1");
    UnitTokens();
  }

  /** The baseline step's ` -r` appends the single token `-r` to whatever the arguments held. */
  lemma BaselineFlagTokens(text: string)
    ensures Split(text + " -r") == Split(text) + ["-r"]
  {
    BaselineText();
    SplitAppendSpaced(text, "-r");
    PrintableNoSpace("-r");
    SingleWord("-r");
  }

  /** Distinct heads under the same tail stay distinct. */
  lemma HeadsDistinct(m1: string, m2: string, t1: string, t2: string, t3: string)
    requires m1 != m2
    ensures m1 + t1 + t2 + t3 != m2 + t1 + t2 + t3
  {
    if |m1| == |m2| {
      assert (m1 + t1 + t2 + t3)[..|m1|] == m1;
      assert (m2 + t1 + t2 + t3)[..|m2|] == m2;
    }
  }

  /**
   * For a fixed choice of options, distinct methods get distinct directories;
   * for one method, distinct choices of one-sided and baseline give distinct
   * directories.
   */
  lemma PowerSubdirDistinct(m1: string, m2: string, dataset: Option<string>, os1: bool, bl1: bool, os2: bool, bl2: bool)
    ensures m1 != m2 ==> PowerSubdir(m1, dataset, os1, bl1) != PowerSubdir(m2, dataset, os1, bl1)
    ensures (os1, bl1) != (os2, bl2) ==> PowerSubdir(m1, dataset, os1, bl1) != PowerSubdir(m1, dataset, os2, bl2)
  {
    if m1 != m2 {
      HeadsDistinct(m1, m2, DatasetMark(dataset), OneSidedMark(os1), BaselineMark(bl1));
    }
    assert |OneSidedMark(os1)| == if os1 then 11 else 0;
    assert |OneSidedMark(os2)| == if os2 then 11 else 0;
    assert |BaselineMark(bl1)| == if bl1 then 19 else 0;
    assert |BaselineMark(bl2)| == if bl2 then 19 else 0;
  }

  /** The restricted dataset's directory mark is its file name without extension. */
  lemma DiacereinStem()
    ensures DatasetStem(DiacereinDataset) == DiacereinName
  {
    var file := DiacereinName + "." + "txt";
    DiacereinPath();
    DiacereinNameChars();
    NoCharAppend(DiacereinName + ".", "txt", '/');
    BasenameOfChild(".", file);
    StemOfFileName(DiacereinName, "txt");
  }

  /** The restricted dataset's path: the current directory, the name, the extension. */
  lemma DiacereinPath()
    ensures DiacereinDataset == "." + "/" + (DiacereinName + "." + "txt")
  {
  }

  lemma DiacereinNameChars()
    ensures NoChar(DiacereinName, '/') && NoChar(DiacereinName + ".", '/')
    ensures HasNonDot(DiacereinName, 0, |DiacereinName|)
  {
    assert DiacereinName[0] != '.';
  }

  /**
   * Each segment reads the directory its method's run writes, for the period
   * asked; without simulations nothing runs and the segments are unchanged.
   */
  lemma PowerPlanShape(methods: seq<string>, period: string, runSimulations: bool, dataset: Option<string>, oneSided: bool, baseline: bool)
    ensures var segs := PowerSegments(methods, period, dataset, oneSided, baseline);
            var runs := PowerRuns(methods, runSimulations, dataset, oneSided, baseline);
            && |segs| == |methods|
            && (forall i :: 0 <= i < |segs| ==> segs[i].period == period)
            && (!runSimulations ==> runs == [])
            && (runSimulations ==>
                  && |runs| == |methods|
                  && forall i :: 0 <= i < |runs| ==> runs[i].methodName == methods[i] && runs[i].outputDir == segs[i].rawOutputDir)
  {
  }

  // ---------------------------------------------------------------------------
  // Type-I-error table
  // ---------------------------------------------------------------------------

  function AlphaExtraArgs(dataset: Option<string>, baseline: bool): string {
    DatasetArgs(dataset) + (if baseline then " -r " else "")
  }

  /** The two-sided directory: the method, then the dataset and baseline marks. */
  function AlphaSubdir(m: string, dataset: Option<string>, baseline: bool): (r: string)
    ensures r == PowerSubdir(m, dataset, false, baseline)
  {
    AppendEmpty(m + DatasetMark(dataset));
    m + DatasetMark(dataset) + BaselineMark(baseline)
  }

  /** The one-sided directory as written: the one-sided mark is added only together with a dataset. */
  function OneSidedDatasetMark(dataset: Option<string>): string {
    if Truthy(dataset) then "__one-sided__" + DatasetStem(dataset.value) else ""
  }

  function OneSidedSubdir(m: string, dataset: Option<string>, baseline: bool): (r: string)
    ensures r == AlphaSubdir(m, dataset, baseline) <==> !Truthy(dataset)
  {
    m + OneSidedDatasetMark(dataset) + BaselineMark(baseline)
  }

  /** The rows one method contributes. */
  function MethodRows(m: string, dataset: Option<string>, baseline: bool, addOneSided: bool): (r: seq<AlphaRow>)
    ensures |r| == if m == Nparld || addOneSided then 2 else 1
    ensures forall k :: 0 <= k < |r| ==> |r[k].files| == 2
  {
    if m == Nparld then NparldRows(AlphaFiles(BasicSettings, AlphaSubdir(m, dataset, baseline)))
    else
      (if addOneSided then [OneSidedRow(m, AlphaFiles(BasicSettings, OneSidedSubdir(m, dataset, baseline)))] else [])
      + [TwoSidedRow(m, AlphaFiles(BasicSettings, AlphaSubdir(m, dataset, baseline)))]
  }

  /** The runs one method launches, in launch order. */
  function MethodRuns(m: string, dataset: Option<string>, baseline: bool, addOneSided: bool): (r: seq<Run>)
    ensures |r| == if m == Nparld then 1 else |MethodRows(m, dataset, baseline, addOneSided)|
    ensures forall k :: 0 <= k < |r| ==> r[k].methodName == m && r[k].settings == AlphaErrorSimulations(BasicSettings)
  {
    var two := Run(m, AlphaErrorSimulations(BasicSettings), Join(DirRawOutput, AlphaSubdir(m, dataset, baseline)), AlphaExtraArgs(dataset, baseline));
    if m == Nparld then [two]
    else
      (if addOneSided
       then [Run(m, AlphaErrorSimulations(BasicSettings), Join(DirRawOutput, OneSidedSubdir(m, dataset, baseline)), AlphaExtraArgs(dataset, baseline) + " -u 1")]
       else [])
      + [two]
  }

  function RowGroups(methods: seq<string>, dataset: Option<string>, baseline: bool, addOneSided: bool): seq<seq<AlphaRow>> {
    seq(|methods|, i requires 0 <= i < |methods| => MethodRows(methods[i], dataset, baseline, addOneSided))
  }

  function RunGroups(methods: seq<string>, dataset: Option<string>, baseline: bool, addOneSided: bool): seq<seq<Run>> {
    seq(|methods|, i requires 0 <= i < |methods| => MethodRuns(methods[i], dataset, baseline, addOneSided))
  }

  /** The whole plan: every method's rows, in method order. */
  function AlphaPlan(methods: seq<string>, dataset: Option<string>, baseline: bool, addOneSided: bool): seq<AlphaRow> {
    Flatten(RowGroups(methods, dataset, baseline, addOneSided))
  }

  function AlphaRuns(methods: seq<string>, dataset: Option<string>, baseline: bool, addOneSided: bool): seq<Run> {
    Flatten(RunGroups(methods, dataset, baseline, addOneSided))
  }

  /** Every launched run belongs to one of the listed methods and uses the type-I-error settings. */
  lemma AlphaRunsFromMethods(methods: seq<string>, dataset: Option<string>, baseline: bool, addOneSided: bool, x: Run)
    requires x in AlphaRuns(methods, dataset, baseline, addOneSided)
    ensures x.methodName in methods && x.settings == AlphaErrorSimulations(BasicSettings)
  {
    var groups := RunGroups(methods, dataset, baseline, addOneSided);
    FlattenMember(groups, x);
    var i :| 0 <= i < |groups| && x in groups[i];
    var k :| 0 <= k < |groups[i]| && groups[i][k] == x;
    assert groups[i] == MethodRuns(methods[i], dataset, baseline, addOneSided);
  }

  /** `methods=None` stands for the six methods. */
  function MethodsOrDefault(methods: Option<seq<string>>): seq<string> {
    if methods.None? then AlphaMethods else methods.value
  }

  /** The naming at the top of `generate_alpha_error_table`'s loop. */
  method AlphaNaming(m: string, extraDataset: Option<string>, baseline: bool)
    returns (subdir: string, osSubdir: string, extraArgs: string)
    ensures subdir == AlphaSubdir(m, extraDataset, baseline)
    ensures osSubdir == OneSidedSubdir(m, extraDataset, baseline)
    ensures extraArgs == AlphaExtraArgs(extraDataset, baseline)
  {
    extraArgs := "";
    subdir := m;
    osSubdir := m;
    subdir, extraArgs := AddDataset(subdir, extraArgs, extraDataset);
    AppendEmpty(DatasetArgs(extraDataset));
    osSubdir := AddOneSidedDataset(osSubdir, extraDataset);
    subdir, osSubdir, extraArgs := AddAlphaBaseline(subdir, osSubdir, extraArgs, baseline);
  }

  /** The baseline step of the type-I-error naming: both directories get the mark, the arguments ` -r `. */
  method AddAlphaBaseline(subdir: string, osSubdir: string, extraArgs: string, baseline: bool)
    returns (subdir': string, osSubdir': string, extraArgs': string)
    ensures subdir' == subdir + BaselineMark(baseline)
    ensures osSubdir' == osSubdir + BaselineMark(baseline)
    ensures extraArgs' == extraArgs + (if baseline then " -r " else "")
  {
    subdir', osSubdir', extraArgs' := subdir, osSubdir, extraArgs;
    if baseline {
      extraArgs' := extraArgs' + " -r ";
      subdir' := subdir' + "__baseline_adjusted";
      osSubdir' := osSubdir' + "__baseline_adjusted";
    } else {
      AppendEmpty(subdir);
      AppendEmpty(osSubdir);
      AppendEmpty(extraArgs);
    }
  }

  /** The one-sided directory's dataset step: the one-sided mark and the stem, only when a dataset is given. */
  method AddOneSidedDataset(osSubdir: string, extraDataset: Option<string>) returns (osSubdir': string)
    ensures osSubdir' == osSubdir + OneSidedDatasetMark(extraDataset)
  {
    osSubdir' := osSubdir;
    if Truthy(extraDataset) {
      osSubdir' := osSubdir' + ("__one-sided__" + Stem(Basename(extraDataset.value)));
    } else {
      AppendEmpty(osSubdir);
    }
  }

  /**
   * One iteration of the method loop: launch the method's runs and extend the
   * three lists with its rows.
   */
  method AddMethod(m: string, extraDataset: Option<string>, baseline: bool, addOneSided: bool,
                   rawFileRows: seq<seq<string>>, periods: seq<string>, rownames: seq<string>, runs: seq<Run>)
    returns (rawFileRows': seq<seq<string>>, periods': seq<string>, rownames': seq<string>, runs': seq<Run>)
    ensures var rows := MethodRows(m, extraDataset, baseline, addOneSided);
            && rawFileRows' == rawFileRows + FileRows(rows)
            && periods' == periods + Periods(rows)
            && rownames' == rownames + Rownames(rows)
    ensures runs' == runs + MethodRuns(m, extraDataset, baseline, addOneSided)
  {
    var subdir, osSubdir, extraArgs := AlphaNaming(m, extraDataset, baseline);
    if m == Nparld {
      rawFileRows', periods', rownames', runs' := AddNparld(m, BasicSettings, subdir, extraArgs, rawFileRows, periods, rownames, runs);
    } else {
      rawFileRows', periods', rownames', runs' := AddGpc(m, BasicSettings, subdir, osSubdir, extraArgs, extraArgs + " -u 1", addOneSided, rawFileRows, periods, rownames, runs);
      ghost var rs := MethodRuns(m, extraDataset, baseline, addOneSided);
      AppendAssoc(runs, rs[..|rs| - 1], [rs[|rs| - 1]]);
    }
  }

  /**
   * `generate_alpha_error_table`, up to the three parallel lists handed to the
   * assembler: they stay equally long and list the plan's rows in order.
   */
  method GenerateAlphaErrorTable(baseline: bool, extraDataset: Option<string>, methods: Option<seq<string>>, addOneSidedGpc: bool)
    returns (rawFileRows: seq<seq<string>>, periods: seq<string>, rownames: seq<string>, runs: seq<Run>)
    ensures var rows := AlphaPlan(MethodsOrDefault(methods), extraDataset, baseline, addOneSidedGpc);
            && |rawFileRows| == |periods| == |rownames| == |rows|
            && rawFileRows == FileRows(rows) && periods == Periods(rows) && rownames == Rownames(rows)
    ensures runs == AlphaRuns(MethodsOrDefault(methods), extraDataset, baseline, addOneSidedGpc)
  {
    var ms := if methods.None? then AlphaMethods else methods.value;
    rawFileRows, periods, rownames, runs := PlanMethods(ms, extraDataset, baseline, addOneSidedGpc);
  }

  /** The method loop of `generate_alpha_error_table` over a given method list. */
  method PlanMethods(ms: seq<string>, extraDataset: Option<string>, baseline: bool, addOneSidedGpc: bool)
    returns (rawFileRows: seq<seq<string>>, periods: seq<string>, rownames: seq<string>, runs: seq<Run>)
    ensures var rows := AlphaPlan(ms, extraDataset, baseline, addOneSidedGpc);
            && |rawFileRows| == |periods| == |rownames| == |rows|
            && rawFileRows == FileRows(rows) && periods == Periods(rows) && rownames == Rownames(rows)
    ensures runs == AlphaRuns(ms, extraDataset, baseline, addOneSidedGpc)
  {
    ghost var groups := RowGroups(ms, extraDataset, baseline, addOneSidedGpc);
    ghost var runGroups := RunGroups(ms, extraDataset, baseline, addOneSidedGpc);
    rawFileRows, periods, rownames, runs := [], [], [], [];
    for i := 0 to |ms|
      invariant rawFileRows == FileRows(Flatten(groups[..i]))
      invariant periods == Periods(Flatten(groups[..i]))
      invariant rownames == Rownames(Flatten(groups[..i]))
      invariant runs == Flatten(runGroups[..i])
    {
      rawFileRows, periods, rownames, runs := AddMethod(ms[i], extraDataset, baseline, addOneSidedGpc, rawFileRows, periods, rownames, runs);
      FlattenSnoc(groups, i);
      FlattenSnoc(runGroups, i);
      ProjectionsAppend(Flatten(groups[..i]), groups[i]);
    }
    TakeAll(groups);
    TakeAll(runGroups);
  }

  /**
   * With one-sided rows every method contributes two rows; without them a
   * list free of nparLD contributes one row per method.
   */
  lemma AlphaPlanLength(ms: seq<string>, dataset: Option<string>, baseline: bool, addOneSided: bool)
    requires !addOneSided ==> Nparld !in ms
    ensures |AlphaPlan(ms, dataset, baseline, addOneSided)| == if addOneSided then 2 * |ms| else |ms|
  {
    var groups := RowGroups(ms, dataset, baseline, addOneSided);
    var k := if addOneSided then 2 else 1;
    assert forall i :: 0 <= i < |groups| ==> |groups[i]| == k;
    FlattenUniform(groups, k);
  }

  /**
   * The default table has twelve rows.
   */
  lemma AlphaPlanCounts(dataset: Option<string>, baseline: bool)
    ensures |AlphaPlan(AlphaMethods, dataset, baseline, true)| == 12
  {
    AlphaPlanLength(AlphaMethods, dataset, baseline, true);
  }

  /** The restricted-dataset table, with its three GPC methods and no one-sided rows, has three. */
  lemma AlphaPlanCounts8(dataset: Option<string>, baseline: bool)
    ensures |AlphaPlan(Methods8, dataset, baseline, false)| == 3
  {
    assert Nparld !in Methods8 by {
      forall i | 0 <= i < |Methods8|
        ensures Methods8[i] != Nparld
      {
        assert |Methods8[i]| > |Nparld|;
      }
    }
    AlphaPlanLength(Methods8, dataset, baseline, false);
  }

  /**
   * nparLD gives two rows that read the files of its single run, for period 1
   * and then period 2.
   */
  lemma NparldRowsShareRun(dataset: Option<string>, baseline: bool, addOneSided: bool)
    ensures var rows := MethodRows(Nparld, dataset, baseline, addOneSided);
            var runs := MethodRuns(Nparld, dataset, baseline, addOneSided);
            && |rows| == 2 && |runs| == 1
            && rows[0].files == rows[1].files == Outfiles(runs[0].outputDir, runs[0].settings)
            && rows[0].period == Period1 && rows[1].period == Period2
            && rows[0].rowname == "nparLD two-sided Period 1" && rows[1].rowname == "nparLD two-sided Period 2"
  {
  }

  /**
   * A GPC method's rows read, in order, the files its runs write; the
   * one-sided row, when present, comes first and its run adds `-u 1` to the
   * arguments of the two-sided run. Both rows are read for the combined period.
   */
  lemma GpcRowsReadRuns(m: string, dataset: Option<string>, baseline: bool, addOneSided: bool)
    requires m != Nparld
    ensures var rows := MethodRows(m, dataset, baseline, addOneSided);
            var runs := MethodRuns(m, dataset, baseline, addOneSided);
            && |rows| == |runs|
            && (forall k :: 0 <= k < |rows| ==>
                  rows[k].files == Outfiles(runs[k].outputDir, runs[k].settings) && rows[k].period == Combined)
            && rows[|rows| - 1].rowname == GpcRowname(m) + " two-sided"
            && (addOneSided ==>
                  && rows[0].rowname == GpcRowname(m) + " one-sided"
                  && runs[0].extraArgs == runs[1].extraArgs + " -u 1")
  {
  }

  /**
   * As written, without an extra dataset the one-sided runs of a GPC method go
   * to the two-sided directory: both runs write the same files and both rows
   * read them. With a dataset the two directories differ.
   */
  lemma OneSidedDirCollides(m: string, dataset: Option<string>, baseline: bool)
    requires m != Nparld
    ensures !Truthy(dataset) ==>
      var rows := MethodRows(m, dataset, baseline, true);
      var runs := MethodRuns(m, dataset, baseline, true);
      && runs[0].outputDir == runs[1].outputDir
      && rows[0].files == rows[1].files
    ensures Truthy(dataset) ==> OneSidedSubdir(m, dataset, baseline) != AlphaSubdir(m, dataset, baseline)
  {
    if Truthy(dataset) {
      assert |OneSidedDatasetMark(dataset)| == |DatasetMark(dataset)| + 11;
    } else {
      assert OneSidedSubdir(m, dataset, baseline) == AlphaSubdir(m, dataset, baseline);
    }
  }

  /** The one-sided directory with the one-sided mark always added. */
  function CorrectedOneSidedSubdir(m: string, dataset: Option<string>, baseline: bool): string {
    m + "__one-sided" + DatasetMark(dataset) + BaselineMark(baseline)
  }

  /** The corrected one-sided directory never coincides with the two-sided one. */
  lemma CorrectedOneSidedSeparate(m: string, dataset: Option<string>, baseline: bool)
    ensures Join(DirRawOutput, CorrectedOneSidedSubdir(m, dataset, baseline)) != Join(DirRawOutput, AlphaSubdir(m, dataset, baseline))
  {
    var c := CorrectedOneSidedSubdir(m, dataset, baseline);
    var a := AlphaSubdir(m, dataset, baseline);
    assert |c| == |a| + 11;
    JoinInjective(DirRawOutput, c, a);
  }

  /** Where an extra dataset is given, the correction changes nothing. */
  lemma CorrectedAgreesWithDataset(m: string, dataset: Option<string>, baseline: bool)
    requires Truthy(dataset)
    ensures CorrectedOneSidedSubdir(m, dataset, baseline) == OneSidedSubdir(m, dataset, baseline)
  {
    var stem := DatasetStem(dataset.value);
    AppendAssoc(m, "__one-sided", "__" + stem);
    AppendAssoc("__one-sided", "__", stem);
    OneSidedMarks();
  }

  /**
   * The corrected mark followed by the dataset mark's separator is the mark as
   * written; stated once so that the proofs comparing the two directories need
   * not take literals apart.
   */
  lemma OneSidedMarks()
    ensures "__one-sided" + "__" == "__one-sided__"
  {
  }
}
