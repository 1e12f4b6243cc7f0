/**
 * Launching the R simulation program, as the three driver scripts do it: one
 * run per simulation setting, whose standard output goes to the setting's
 * file under an output directory. Only what is decided in the scripts is
 * kept: the command tokens of each run and the list of output paths
 * returned. Starting the process, creating directories and echoing its
 * standard error are effects outside this model.
 */
module Simulation {
  import opened PyText
  import opened Slices

  /** A dictionary from option strings to output files, in insertion order. */
  type Settings = seq<(string, string)>

  /** One call of the simulation launcher: method, settings, output directory and extra arguments. */
  datatype Run = Run(methodName: string, settings: Settings, outputDir: string, extraArgs: string)

  /** The R program and its script. */
  const RProgram: seq<string> := ["Rscript", "./ebstatmax/diacerein.R"]

  /** Relative layout of the raw output files. */
  const SubdirPain := "pain"
  const SubdirPruritus := "pruritus"
  const SubdirScenario1 := "scenario_1"
  const SubdirScenario2 := "scenario_2"
  const SubdirNoEffect := "no_effect"
  const OutfileNorm := "norm.json"
  const OutfileLnorm := "lnorm.json"
  const OutfileAlphaError := "alpha_error.json"

  const DirRawOutput := "raw-output"

  function RawFile(target: string, scenario: string, file: string): string {
    Join3(target, scenario, file)
  }

  /**
   * The options of the eight power runs, without basic settings: pruritus then
   * pain; within each, lnorm scenario 1, 2, then norm scenario 1, 2.
   */
  const PowerOptions: seq<string> := [
    "-t Pruritus -s 1 -e lnorm", "-t Pruritus -s 2 -e lnorm", "-t Pruritus -s 1 -e norm", "-t Pruritus -s 2 -e norm",
    "-t Pain -s 1 -e lnorm", "-t Pain -s 2 -e lnorm", "-t Pain -s 1 -e norm", "-t Pain -s 2 -e norm" ]

  /** The file each power run writes, in the same order. */
  const PowerFiles: seq<string> := [
    RawFile(SubdirPruritus, SubdirScenario1, OutfileLnorm), RawFile(SubdirPruritus, SubdirScenario2, OutfileLnorm),
    RawFile(SubdirPruritus, SubdirScenario1, OutfileNorm), RawFile(SubdirPruritus, SubdirScenario2, OutfileNorm),
    RawFile(SubdirPain, SubdirScenario1, OutfileLnorm), RawFile(SubdirPain, SubdirScenario2, OutfileLnorm),
    RawFile(SubdirPain, SubdirScenario1, OutfileNorm), RawFile(SubdirPain, SubdirScenario2, OutfileNorm) ]

  /** The power settings: each option string prefixed by the basic settings, with its file. */
  function PowerSimulations(basic: string): (settings: Settings)
    ensures |settings| == 8
  {
    seq(8, i requires 0 <= i < 8 => (basic + PowerOptions[i], PowerFiles[i]))
  }

  /** The options of the two type-I-error runs, pruritus then pain, and their files. */
  const AlphaErrorOptions: seq<string> := ["-t Pruritus", "-t Pain"]
  const AlphaErrorFiles: seq<string> := [
    RawFile(SubdirPruritus, SubdirNoEffect, OutfileAlphaError), RawFile(SubdirPain, SubdirNoEffect, OutfileAlphaError) ]

  /** The type-I-error settings: each option string prefixed by the basic settings, with its file. */
  function AlphaErrorSimulations(basic: string): (settings: Settings)
    ensures |settings| == 2
  {
    seq(2, i requires 0 <= i < 2 => (basic + AlphaErrorOptions[i], AlphaErrorFiles[i]))
  }

  /**
   * The tokens of one run: program, method, the setting's options, then the
   * extra arguments if any. It specifies what the launcher's loop hands to the
   * R process for each setting.
   */
  function Command(methodName: string, options: string, extraArgs: string): (r: seq<string>)
    ensures |r| >= 4 && r[..4] == RProgram + ["-m", methodName]
    ensures forall k :: 4 <= k < |r| ==> r[k] != [] && NoSpace(r[k])
  {
    RProgram + ["-m"] + [methodName] + Split(options) + (if |extraArgs| > 0 then Split(extraArgs) else [])
  }

  /** The paths returned: each setting's file under the output directory, in settings order. */
  function Outfiles(outputDir: string, settings: Settings): (outfiles: seq<string>)
    ensures |outfiles| == |settings|
  {
    seq(|settings|, i requires 0 <= i < |settings| => Join(outputDir, settings[i].1))
  }

  /**
   * `perform_simulations` / `run_simulation_framework`: for every setting in
   * order, record its output path and launch the command that writes it.
   * `commands` lists the launched commands in launch order.
   */
  method PerformSimulations(methodName: string, settings: Settings, outputDir: string, extraArgs: string)
    returns (outfiles: seq<string>, commands: seq<seq<string>>)
    ensures outfiles == Outfiles(outputDir, settings)
    ensures |commands| == |settings|
    ensures forall i :: 0 <= i < |settings| ==> commands[i] == Command(methodName, settings[i].0, extraArgs)
  {
    outfiles := [];
    commands := [];
    for i := 0 to |settings|
      invariant outfiles == Outfiles(outputDir, settings[..i])
      invariant |commands| == i
      invariant forall k :: 0 <= k < i ==> commands[k] == Command(methodName, settings[k].0, extraArgs)
    {
      var (options, file) := settings[i];
      var outfile := Join(outputDir, file);
      outfiles := outfiles + [outfile];
      var command := RProgram + ["-m"] + [methodName] + Split(options);
      if |extraArgs| > 0 {
        command := command + Split(extraArgs);
      }
      commands := commands + [command];
    }
    TakeAll(settings);
  }

  /** Launching a recorded run where the caller ignores what comes back. */
  method Launch(run: Run) {
    var _, _ := PerformSimulations(run.methodName, run.settings, run.outputDir, run.extraArgs);
  }

  /**
   * Each returned path is the setting's relative file placed under the output
   * directory with one separator.
   */
  lemma OutfilesUnderDir(outputDir: string, settings: Settings, i: nat)
    requires i < |settings|
    requires outputDir != [] && outputDir[|outputDir| - 1] != '/'
    requires settings[i].1 == [] || settings[i].1[0] != '/'
    ensures Outfiles(outputDir, settings)[i] == outputDir + "/" + settings[i].1
  {
    JoinShape(outputDir, settings[i].1);
  }

  /**
   * The guard on the extra arguments changes nothing: the command is the
   * program, `-m`, the method, then the tokens of options and extra arguments
   * read as one space-separated text.
   */
  lemma CommandTokens(methodName: string, options: string, extraArgs: string)
    ensures Command(methodName, options, extraArgs) == RProgram + ["-m", methodName] + Split(options + " " + extraArgs)
    ensures Command(methodName, options, extraArgs)[..4] == RProgram + ["-m", methodName]
  {
    SplitAppend(options, extraArgs);
    if |extraArgs| == 0 {
      assert Split(extraArgs) == [];
    }
    assert RProgram + ["-m"] + [methodName] == RProgram + ["-m", methodName];
  }

  /** The one-sided flag on its own reaches the program as `-u 1`. */
  lemma UnitTokens()
    ensures Split("-u 1") == ["-u", "1"]
  {
    UnitText();
    PrintableNoSpace("-u");
    PrintableNoSpace("1");
    TwoWords("-u", "1");
  }

  /** The baseline flag in front of further arguments adds the single token `-r`. */
  lemma BaselineTokens(text: string)
    ensures Split("-r " + text) == ["-r"] + Split(text)
  {
    BaselineText();
    SplitAppend("-r", text);
    PrintableNoSpace("-r");
    SingleWord("-r");
  }

  /** How the flag literals split into their parts, stated once so that the token proofs need not take literals apart. */
  lemma UnitText()
    ensures "-u 1" == "-u" + " " + "1"
    ensures " -u 1" == " " + "-u 1"
  {
  }

  lemma BaselineText()
    ensures "-r " == "-r" + " "
    ensures " -r" == " " + "-r"
    ensures "-r " + "" == "-r "
  {
  }

  /** Every option string starts with the target flag `-t` and a space. */
  lemma OptionsStartWithTarget()
    ensures forall i :: 0 <= i < |PowerOptions| ==> StartsWith(PowerOptions[i], "-t ")
    ensures forall i :: 0 <= i < |AlphaErrorOptions| ==> StartsWith(AlphaErrorOptions[i], "-t ")
  {
  }
}
