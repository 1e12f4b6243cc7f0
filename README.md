# Power and type-I-error table plans of the diacerein simulation study

This project models, in Dafny, the deterministic core of the scripts that reproduce
the manuscript tables of the diacerein ordinal-outcome simulation study:

- **The power-table builder** (`prepare_power_table`). For one method and one period it reads
  the four (norm, lnorm) result-file pairs under `outputDir/method`. It walks each file's
  `power` object in stored order and collects each label's `rejection_rate[period]`.
  It asserts that every column repeats the previous non-empty column's labels, then
  transposes the columns into rows. Finally it keys the rows through the six-entry label
  map and the columns through the product (method) x (Pruritus, Pain) x (Scenario 1, Scenario 2).
- **The stand-alone power-table script** (`collect_single_power_table` and its printing loop).
  It reads the same columns without comparing labels, puts the last column's labels in
  front, and prints the table row by row.
- **The launcher** (`perform_simulations` / `run_simulation_framework`): which output paths it
  returns and which command tokens it launches.
- **The run plans of the three driver scripts** (`reproduce.py`, `reproduce_all_tables.py`,
  `run_simulations.py`): for each method, the output directory name and extra arguments of
  every run, the power-table segments, and the three parallel lists (file rows, periods,
  row names) handed to the type-I-error table assembler.

Modules:

- `Slices`, `PyText` and `Grid` hold the generic helpers:
  - `PyText` models Python's `posixpath.join`, `basename`, `splitext(..)[0]`, `str.split()`
    (with `str.isspace`) and `str.replace`.
  - `Grid` models `zip(*columns)`.
- `PowerRecords` holds a loaded result file and the reading both builders share.
- `PrepareTables` and `PowerTable` hold the two builders.
- `Simulation` holds the launcher and the simulation settings.
- `Plans` holds the per-method row and run bookkeeping shared by the drivers.
- `Reproduce`, `ReproduceAllTables` and `RunSimulations` hold one driver each.

Each loop of the source is a method whose loop invariant ties its state to a
specification function. Lemmas state the properties of those functions.

Loaded files are a `map` from path to a parsed record; a path not in the map is a missing
file. A record's `power` object is an ordered sequence of (label, entry) pairs, because
the builders depend on Python's insertion order. Rejection rates are an opaque type `V`.
Every exception the code can raise is a `Failure` value in a `Result`:

| exception | raised when |
|---|---|
| `FileNotFound` | the file is missing |
| `KeyError` | a `power` key, a `rejection_rate` key or a period key is missing, or a label is not in the map |
| `AssertionError` | the label check fails |
| `TypeError` (`EmptyRowIndex`) | the row index is built from no labels |
| `ValueError` (`ShapeError`) | the frame's data and index disagree in shape |
| `IndexError` | the printing loop runs past a column |

The model follows the code:

- Rows follow the label order found in the files, not a fixed canonical order.
- The label check is skipped after an empty column.
- There are no per-column metadata checks.
- No rounding is applied to the rates.

## Model

| member | source | states |
|---|---|---|
| Simulation.PerformSimulations | reproduce.py:79-106 | Returns one path per setting, `join(outputDir, file)`, in settings order. The i-th command is the R program, `-m`, the method, the split options, then the split extra arguments only when they are non-empty. The same function is `reproduce_all_tables.py:74-101` and `run_simulations.py:66-93`. |
| Simulation.OutfilesUnderDir | reproduce.py:88-89 | Under a directory without a trailing `/`, the i-th returned path is the directory, one `/`, and the setting's relative file. |
| Simulation.Outfiles | reproduce.py:85-89 | One returned path per setting. |
| Simulation.Command | reproduce.py:90-92 | The command starts with `Rscript`, the script, `-m` and the method. Every later argument is a non-empty token without whitespace. |
| Simulation.CommandTokens | reproduce.py:90-92 | The guard on empty extra arguments changes nothing. The command is the program, `-m`, the method, then the tokens of `options + " " + extraArgs`. |
| Simulation.UnitTokens | reproduce.py:128 | The one-sided flag `-u 1` splits into exactly the two tokens `-u`, `1`. |
| Simulation.BaselineTokens | reproduce_all_tables.py:123 | `-r ` in front of any text adds exactly the one token `-r` before that text's tokens. |
| Simulation.PowerSimulations | reproduce.py:60-69 | There are eight power settings, each the basic settings followed by one option string, paired with its file. |
| Simulation.AlphaErrorSimulations | reproduce.py:70-73 | There are two type-I-error settings, pruritus then pain. |
| Simulation.OptionsStartWithTarget | reproduce.py:60-73 | Every power and type-I-error option string starts with the target flag `-t` and a space. |
| PyText.JoinShape | reproduce.py:88 | A joined path ends with its last component. A relative component keeps the directory as a prefix, separated by exactly one `/` unless the directory already ends in one. |
| PyText.JoinDistinct | reproduce.py:133 | Distinct relative components under one directory give distinct paths. |
| PyText.JoinInjective | reproduce.py:133 | Under a non-empty relative directory, joining is injective in the component, absolute or not. |
| PyText.Join | reproduce.py:88 | An absolute component replaces the directory. The result is never shorter than the component and at most one separator longer than the two parts. That it ends with its last component is stated by `PyText.JoinShape`. |
| PyText.Basename | reproduce.py:126 | The base name holds no `/`, ends the path, and is the whole path or follows its last `/`. |
| PyText.RFind | reproduce.py:126 | The result is the index of the last occurrence of the character, or -1 when there is none. |
| PyText.BasenameOfChild | reproduce.py:126 | The base name of `dir/name` is `name` when `name` holds no `/`. |
| PyText.Stem | reproduce.py:126 | The stem is a prefix of the path: the whole path, or the path cut at a `.` after which no `.` and no `/` follow. Only the last extension of the file name is dropped. |
| PyText.StemOfFileName | reproduce.py:126 | For `name.ext` with a `name` not made only of dots, the stem is `name`. |
| PyText.Split | reproduce.py:90 | Every token of `str.split()` is non-empty and holds no whitespace. |
| PyText.SplitJoinWords | reproduce.py:90 | Splitting words joined by single spaces gives the words back. |
| PyText.SplitAppend | reproduce.py:90-92 | The tokens of `a + " " + b` are the tokens of `a` followed by those of `b`. |
| PyText.SingleWord | reproduce.py:90 | A non-empty word without whitespace is its own single token. |
| PyText.TwoWords | reproduce.py:90 | Two words joined by one space split into exactly those two words. |
| PyText.ReplaceRemovesChar | reproduce.py:186 | Replacing every `-` by a space leaves no `-`. |
| PyText.ReplaceKeepsAbsent | reproduce.py:186 | A character absent from both the text and the replacement stays absent. |
| PyText.Replace | reproduce.py:186 | Replacing a non-empty pattern by a text of the same length keeps the length. A text without the pattern comes back unchanged. |
| Grid.MinLen | utils/prepare_tables.py:70 | The length where `zip` stops is at most every column's length and equals one of them. |
| Grid.Transpose | utils/prepare_tables.py:70 | There are as many rows as the shortest column is long, each row holds one cell per column, and cell (r, c) is column c's r-th entry. |
| Grid.TransposeTwice | utils/prepare_tables.py:70 | Transposing a non-empty rectangular table twice gives it back. |
| PowerRecords.FileColumns | utils/prepare_tables.py:32-45 | There are four file columns: pruritus s1, pruritus s2, pain s1, pain s2, each a (norm, lnorm) pair. |
| PowerRecords.ExtractEntries | utils/prepare_tables.py:60-64 | One label and one rate per entry. A failure is a `KeyError` for `rejection_rate` or for the period. |
| PowerRecords.ExtractEntriesOk | utils/prepare_tables.py:61-64 | The walk succeeds if and only if every entry has a `rejection_rate` holding the period. Then label k and rate k are those of entry k, in file order. |
| PowerRecords.ReadFile | utils/prepare_tables.py:58-64 | A missing file raises `FileNotFound` and a missing `power` key raises `KeyError`. Otherwise the result is the walk of the `power` entries. |
| PowerRecords.ReadPaths | utils/prepare_tables.py:57-64 | Labels and rates read from several files grow in lockstep. |
| PowerRecords.ReadPathsOk | utils/prepare_tables.py:57-64 | Reading several files succeeds if and only if each of them reads. |
| PowerRecords.ReadPathsSnoc | utils/prepare_tables.py:57-64 | One more file appends its labels and rates after those already read, or passes the first failure on. |
| PowerRecords.ReadColumnOrder | utils/prepare_tables.py:55-64 | A column holds the norm file's entries followed by the lnorm file's, for labels and rates alike. |
| PowerRecords.ReadColumns | utils/prepare_tables.py:54-58 | One read result per file column. |
| PowerRecords.ReadColumnsLockstep | utils/prepare_tables.py:55-64 | Every column read holds as many rates as labels. |
| PowerRecords.FileFails | utils/prepare_tables.py:58-59 | The first file that cannot be read decides the failure of the whole read. |
| PowerRecords.ExtractEntriesErrExtends | utils/prepare_tables.py:61-64 | Once a prefix of the entries fails, the whole walk fails with the same error. |
| PowerRecords.ReadPathsErrExtends | utils/prepare_tables.py:57-59 | Once a prefix of the files fails, the whole read fails with the same error. |
| PowerRecords.ReadPowerFile | utils/prepare_tables.py:58-64 | The loop over one file's `power` entries computes exactly `ReadFile`, including which `KeyError` it raises. |
| PowerRecords.ReadColumnFiles | utils/prepare_tables.py:55-64 | The loop over one column's two files computes exactly the column read. |
| PrepareTables.RownameMapFamilies | utils/prepare_tables.py:17-24 | The map has six labels. The three `meanlog=` labels go to the log family and the three `mean=` labels to the norm family. |
| PrepareTables.RownameMapInjective | utils/prepare_tables.py:17-24 | No two labels share a row key. |
| PrepareTables.MapRownames | utils/prepare_tables.py:71 | Succeeds if and only if every label is in the map. Then key i is the map's entry for label i. Otherwise it raises `KeyError` for the first unknown label. |
| PrepareTables.RowIndex | utils/prepare_tables.py:71 | The row index builds if and only if there are labels and all of them are mapped. |
| PrepareTables.ColumnIndex | utils/prepare_tables.py:47-50 | There are four column keys. |
| PrepareTables.ColumnIndexOrder | utils/prepare_tables.py:47-50 | The keys come in product order: (method, Pruritus, Scenario 1), (method, Pruritus, Scenario 2), (method, Pain, Scenario 1), (method, Pain, Scenario 2). |
| PrepareTables.ColumnIndexMatchesFiles | utils/prepare_tables.py:41-50 | Column key c names the outcome and scenario of the c-th file pair. |
| PrepareTables.NewFrame | utils/prepare_tables.py:72 | The frame builds if and only if there are no data rows or as many rows as index keys. Cells are the rates, or NaN everywhere when there is no data. |
| PrepareTables.CollectColumns | utils/prepare_tables.py:52-68 | A successful collection holds one rate list per column. |
| PrepareTables.CollectColumnsOk | utils/prepare_tables.py:65-68 | Collection succeeds if and only if every column reads and each column repeats the previous column's labels whenever those are non-empty. The labels kept are the last column's. |
| PrepareTables.CollectColumnsTable | utils/prepare_tables.py:68 | A successful collection holds column c's rates at position c. |
| PrepareTables.ConsistentFrom | utils/prepare_tables.py:65-67 | When the first column has labels, every accepted column has exactly those labels. |
| PrepareTables.CollectColumnsErrExtends | utils/prepare_tables.py:54-68 | Once a prefix of the columns fails, the whole collection fails with the same error. |
| PrepareTables.CollectedRows | utils/prepare_tables.py:70 | The transposed table has as many rows as the last column has labels, or none when the first column had no labels. |
| PrepareTables.BuildSucceeds | utils/prepare_tables.py:52-72 | The build succeeds if and only if every column reads, the labels are consistent, and the last column's labels are non-empty and all mapped. |
| PrepareTables.BuildShape | utils/prepare_tables.py:68-72 | In a built frame, row i is keyed by the map entry of the i-th label in file order and the column keys are those given. Cell (r, c) is the r-th rate of column c, or NaN when the first column was empty. |
| PrepareTables.BuildFrame | utils/prepare_tables.py:52-72 | A built frame comes from columns that all read. It carries the given column keys, at least one row, one index key per row and one cell per column in every row. |
| PrepareTables.LabelMismatchAborts | utils/prepare_tables.py:65-66 | A column whose labels differ from the previous non-empty column's makes the build fail. |
| PrepareTables.LabelCheckSkippedAfterEmpty | utils/prepare_tables.py:65 | After an empty column, the next readable column is accepted whatever its labels. |
| PrepareTables.UnreadableColumnAborts | utils/prepare_tables.py:57-64 | A column that cannot be read makes the build fail. |
| PrepareTables.ColumnFails | utils/prepare_tables.py:54-64 | The first unreadable column decides the build's error. |
| PrepareTables.ColumnMismatches | utils/prepare_tables.py:65-67 | The first column that fails the label check makes the build raise `AssertionError` at that column. |
| PrepareTables.PowerTableSucceeds | utils/prepare_tables.py:27-72 | The power table builds if and only if all eight files read, the four columns' labels agree wherever the previous column had any, and the last column's labels are non-empty and all in the map. |
| PrepareTables.PowerTableShape | utils/prepare_tables.py:27-72 | A built power table has the method's four column keys and one row per label of the last column, keyed through the map in file order. Cell (r, c) is the r-th rate of column c, or NaN everywhere when the first column was empty. |
| PrepareTables.PowerTableOf | utils/prepare_tables.py:27-72 | A built power table comes from eight readable files. It carries the method's four column keys, at least one row and one index key per row. |
| PrepareTables.PreparePowerTable | utils/prepare_tables.py:27-72 | The nested loops and the final transpose and frame compute exactly `PowerTableOf`, the first failure included. |
| PowerTable.CollectAll | power_table.py:38-50 | A successful collection holds one rate list per column. |
| PowerTable.CollectAllOk | power_table.py:38-52 | Collection succeeds if and only if every column reads. It keeps every column's rates in order and only the last column's labels. |
| PowerTable.ScriptTable | power_table.py:52 | The table is the label list followed by the rate columns. |
| PowerTable.SingleTableOf | power_table.py:19-53 | The table builds if and only if every file column reads. It then has five columns: the labels, then the four rate columns. |
| PowerTable.SingleTableShape | power_table.py:19-53 | The script's table builds if and only if all eight files read. It has five columns: the labels of the last file column, then the four rate columns in order. |
| PowerTable.SingleTableWhereBuilt | power_table.py:38-50 | The script builds whenever every column of the method's directory reads, since no labels are compared. |
| PowerTable.CollectSinglePowerTable | power_table.py:19-53 | The column loop computes exactly `SingleTableOf`, the first failure included. |
| PowerTable.CollectAllErrExtends | power_table.py:39-50 | Once a prefix of the columns fails, the whole collection fails with the same error. |
| PowerTable.PrintRows | power_table.py:95-98 | The rows printed are the transpose of the table. The loop ends without `IndexError` if and only if no column is shorter than the first. An empty table raises `IndexError`. |
| PowerTable.ScriptTablePrintsAll | power_table.py:95-98 | Printing the script's table runs to its end if and only if no rate column is shorter than the label list. |
| PowerTable.ScriptTableRows | power_table.py:95-98 | Printed row i is the i-th label followed by every column's i-th rate. |
| PowerTable.PowerTableScript | power_table.py:94-98 | The script prints the transpose of the `nparLD`, `period_1` table, or fails with that table's error. When the table builds, printing raises `IndexError` exactly when some rate column is shorter than the label column, and raises nothing else. |
| Plans.AddNparld | reproduce.py:177-184 | nparLD launches one run and adds two rows reading that run's files, for `period_1` and `period_2`, named `nparLD two-sided Period 1` and `nparLD two-sided Period 2`. |
| Plans.AddGpc | reproduce.py:185-202 | A GPC method adds the one-sided run and row (when asked), then the two-sided run and row, to all four lists. |
| Plans.ProjectionsAppend | reproduce.py:162-164 | Appending rows appends to each of the three parallel lists. |
| Plans.NparldRowsLists | reproduce.py:181-184 | The nparLD rows give the file list twice, the two periods and the two names. |
| Plans.NparldRows | reproduce.py:181-184 | nparLD gives two rows, both reading the same run's files, for `period_1` then `period_2`, under two different names. |
| Plans.FlattenUniform | reproduce.py:165-202 | Groups of equal size k flatten to k times as many rows. |
| Plans.FlattenMember | reproduce.py:165-202 | Every entry of the flattened plan comes from some method's group; `Reproduce.AlphaRunsFromMethods` uses it for the runs. |
| Plans.AlphaFilesOrder | reproduce.py:70-73 | A type-I-error file row lists the pruritus file first and the pain file second, both inside the run's directory. |
| Plans.GpcRowname | reproduce.py:186 | A GPC row name holds no hyphen and is as long as the method name. |
| Plans.RownamesPerMethodDistinct | reproduce.py:182-201 | The two rows a method contributes never share a name. |
| Reproduce.PowerNaming | reproduce.py:122-132 | The subdirectory is the method, then the dataset stem, `__one-sided` and `__baseline_adjusted` marks, each only when its option is set. The arguments ` -d X`, ` -u 1` and ` -r` follow in the same order. |
| Reproduce.AddDataset | reproduce.py:124-126 | The dataset step appends ` -d <dataset>` and `__<stem>` exactly when the dataset is truthy. |
| Reproduce.AddOneSided | reproduce.py:127-129 | The one-sided step appends ` -u 1` and `__one-sided` exactly when one-sided. |
| Reproduce.AddBaseline | reproduce.py:130-132 | The baseline step appends ` -r` and `__baseline_adjusted` exactly when baseline-adjusted. |
| Reproduce.PowerSubdir | reproduce.py:122-132 | The directory is never shorter than the method name, and is exactly as long only when no option is set. |
| Reproduce.GeneratePowerTable | reproduce.py:109-142 | The segments are one (directory, period) per method, in method order. The runs are one per method, and only when simulations are requested. |
| Reproduce.PowerSegmentsSnoc | reproduce.py:120-140 | One more method appends its segment. |
| Reproduce.PowerRunsSnoc | reproduce.py:120-136 | One more method appends its run when simulating. |
| Reproduce.PowerPlanShape | reproduce.py:119-140 | There is one segment per method, all for the requested period. Without simulations nothing runs. Otherwise run i is method i's and writes the directory segment i reads. |
| Reproduce.PowerExtraArgsTokens | reproduce.py:122-136 | The extra arguments reach the program as `-d` and the dataset's tokens, then `-u 1`, then `-r`, each only when its option is set. |
| Reproduce.DatasetTokens | reproduce.py:125 | ` -d X` splits into `-d` followed by X's tokens. |
| Reproduce.UnitFlagTokens | reproduce.py:128 | Appending ` -u 1` appends the tokens `-u`, `1`. |
| Reproduce.BaselineFlagTokens | reproduce.py:131 | Appending ` -r` appends the token `-r`. |
| Reproduce.PowerSubdirDistinct | reproduce.py:122-133 | For fixed options, distinct methods get distinct directories. For one method, distinct (one-sided, baseline) choices do too. |
| Reproduce.DiacereinStem | reproduce.py:76 | The restricted dataset `./Diacerein_80-matched.txt` leaves the mark `Diacerein_80-matched`. |
| Reproduce.AlphaNaming | reproduce.py:166-176 | The two-sided subdirectory is method, dataset mark, baseline mark. The one-sided one is method, `__one-sided__<stem>` only when a dataset is given, baseline mark. The arguments are ` -d X`, then ` -r `. |
| Reproduce.AddAlphaBaseline | reproduce.py:173-176 | The baseline step marks both directories and appends ` -r `, exactly when baseline-adjusted. |
| Reproduce.AddOneSidedDataset | reproduce.py:169-172 | The one-sided directory gets `__one-sided__<stem>` exactly when the dataset is truthy. |
| Reproduce.AlphaSubdir | reproduce.py:167-175 | The two-sided type-I-error directory is the power directory for the same method, dataset and baseline choice without one-sidedness. |
| Reproduce.OneSidedSubdir | reproduce.py:168-176 | As written, the one-sided directory equals the two-sided one exactly when no dataset is given. |
| Reproduce.AddMethod | reproduce.py:165-202 | One iteration extends the three lists by the method's rows and the runs by its runs. |
| Reproduce.PlanMethods | reproduce.py:162-202 | After the loop, the three lists have equal length and are the projections of the plan's rows in method order. The runs are the plan's runs. |
| Reproduce.GenerateAlphaErrorTable | reproduce.py:145-204 | Without a method list, the six default methods are used. The lists handed to the assembler are those of `PlanMethods`. |
| Reproduce.MethodRows | reproduce.py:177-202 | A method contributes two rows, except a GPC method without its one-sided row, which contributes one. Every row reads two files. |
| Reproduce.MethodRuns | reproduce.py:177-202 | nparLD launches one run. A GPC method launches one run per row. Every run is of the method itself with the type-I-error settings. |
| Reproduce.AlphaRunsFromMethods | reproduce.py:165-202 | Every run the type-I-error loop launches is of one of the listed methods and uses the type-I-error settings. |
| Reproduce.AlphaPlanLength | reproduce.py:162-202 | With one-sided rows there are 2 rows per method. Without them, for a list free of nparLD, there is 1 per method. |
| Reproduce.AlphaPlanCounts | reproduce.py:153-161 | The default table has twelve rows. |
| Reproduce.AlphaPlanCounts8 | reproduce.py:298-309 | The restricted-dataset table has three rows. |
| Reproduce.NparldRowsShareRun | reproduce.py:177-184 | nparLD's two rows read the files of its single run, for `period_1` then `period_2`, under their fixed names. |
| Reproduce.GpcRowsReadRuns | reproduce.py:185-202 | Each GPC row reads the files of the matching run for `combined`. The one-sided row comes first, and its run adds ` -u 1` to the two-sided arguments. |
| Reproduce.OneSidedDirCollides | reproduce.py:166-176 | As written, without a dataset both GPC runs write to one directory and both rows read the same files. With a dataset the directories differ. |
| Reproduce.CorrectedOneSidedSeparate | reproduce.py:166-176 | With the one-sided mark always added, the one-sided directory never equals the two-sided one. |
| Reproduce.CorrectedAgreesWithDataset | reproduce.py:169-172 | Where a dataset is given, the corrected directory is the one written. |
| ReproduceAllTables.PowerNaming | reproduce_all_tables.py:116-124 | The subdirectory is `baseline_adjusted__` (if set), then `one-sided-` (if set), then the method. The arguments are `-r ` in front of `-u 1` or the empty text. |
| ReproduceAllTables.GeneratePowerTable | reproduce_all_tables.py:104-134 | There is one segment per method, in order, and one run per method when simulating. |
| ReproduceAllTables.PowerSegmentsSnoc | reproduce_all_tables.py:114-132 | One more method appends its segment. |
| ReproduceAllTables.PowerRunsSnoc | reproduce_all_tables.py:114-128 | One more method appends its run when simulating. |
| ReproduceAllTables.PowerPlanShape | reproduce_all_tables.py:113-132 | Segments are per method for the given period. Each run writes the directory its segment reads. There are no runs without simulations. |
| ReproduceAllTables.PowerExtraArgsTokens | reproduce_all_tables.py:116-124 | The arguments reach the program as `-r`, then `-u 1`, each only when set. |
| ReproduceAllTables.PowerSubdirPrefix | reproduce_all_tables.py:116-124 | The directory is the options' prefix followed by the method. |
| ReproduceAllTables.PowerSubdir | reproduce_all_tables.py:116-124 | The directory is the method name lengthened by 19 characters for baseline adjustment and 10 for one-sidedness. |
| ReproduceAllTables.PowerDirDistinct | reproduce_all_tables.py:116-125 | Distinct methods, or distinct options for one method, give distinct output directories. |
| ReproduceAllTables.AlphaNaming | reproduce_all_tables.py:154-176 | The arguments are `-r ` or empty. The directories are `[baseline_adjusted__]method` and `[baseline_adjusted__]one-sided-method`. |
| ReproduceAllTables.AddMethod | reproduce_all_tables.py:153-189 | One iteration extends the three lists by the method's rows and the runs by its runs. |
| ReproduceAllTables.PlanMethods | reproduce_all_tables.py:150-189 | The three lists have equal length and are the projections of the plan's rows. The runs are the plan's runs. |
| ReproduceAllTables.GenerateAlphaErrorTable | reproduce_all_tables.py:137-191 | The three lists each have twelve entries and follow the plan of the six methods. |
| ReproduceAllTables.AlphaPlanLength | reproduce_all_tables.py:153-189 | Every method contributes exactly two rows. |
| ReproduceAllTables.MethodRows | reproduce_all_tables.py:153-189 | Every method contributes two rows, each reading two files. |
| ReproduceAllTables.MethodRuns | reproduce_all_tables.py:153-185 | nparLD launches one run and a GPC method two. Every run is of the method itself with the type-I-error settings. |
| ReproduceAllTables.AlphaPlanCounts | reproduce_all_tables.py:142-189 | The table has twelve rows. |
| ReproduceAllTables.GpcRowsReadRuns | reproduce_all_tables.py:170-189 | A GPC method gives a one-sided row, then a two-sided row, each reading its own run's files for `combined`. The one-sided run adds ` -u 1`. |
| ReproduceAllTables.OneSidedArgsTokens | reproduce_all_tables.py:179-181 | The one-sided run passes the two-sided run's tokens followed by `-u 1`. |
| ReproduceAllTables.BaselineArgsTokens | reproduce_all_tables.py:154-157 | The two-sided runs pass `-r` when baseline-adjusted and nothing otherwise. |
| ReproduceAllTables.OneSidedSeparate | reproduce_all_tables.py:171-178 | A GPC method's one-sided and two-sided directories always differ. |
| ReproduceAllTables.AlphaSubdir | reproduce_all_tables.py:157-175 | The two-sided type-I-error directory is the two-sided power directory with the same baseline choice. |
| ReproduceAllTables.OneSidedSubdir | reproduce_all_tables.py:171-176 | The one-sided type-I-error directory is the one-sided power directory with the same baseline choice. |
| RunSimulations.GeneratePowerTable | run_simulations.py:96-122 | There is one segment per method, in order, and one run per method when simulating. |
| RunSimulations.PowerSegmentsSnoc | run_simulations.py:105-120 | One more method appends its segment. |
| RunSimulations.PowerRunsSnoc | run_simulations.py:105-116 | One more method appends its run when simulating. |
| RunSimulations.PowerPlanShape | run_simulations.py:104-120 | Segments are per method for the given period. Each run writes the directory its segment reads. There are no runs without simulations. |
| RunSimulations.PowerExtraArgsTokens | run_simulations.py:107-112 | The power runs pass `-u 1` when one-sided and nothing otherwise. |
| RunSimulations.PowerDirDistinct | run_simulations.py:107-113 | Distinct methods, or the two sidednesses of one method, give distinct directories. |
| RunSimulations.PowerSubdir | run_simulations.py:107-112 | The directory ends with the method name and is 10 characters longer when one-sided. |
| RunSimulations.PowerDirsSharedWithAllTables | run_simulations.py:107-113 | The power directories are those the all-tables script uses without baseline adjustment. |
| RunSimulations.AddMethod | run_simulations.py:140-160 | One iteration extends the three lists by the method's rows and the runs by its runs. |
| RunSimulations.PlanMethods | run_simulations.py:137-160 | The three lists have equal length and are the projections of the plan's rows. The runs are the plan's runs. |
| RunSimulations.GenerateAlphaErrorTable | run_simulations.py:125-163 | The three lists each have twelve entries and follow the plan of the six methods. |
| RunSimulations.AlphaPlanLength | run_simulations.py:140-160 | Every method contributes exactly two rows. |
| RunSimulations.OneSidedSubdir | run_simulations.py:150 | The one-sided type-I-error directory is the one-sided power directory. |
| RunSimulations.MethodRows | run_simulations.py:140-160 | Every method contributes two rows, each reading two files. |
| RunSimulations.MethodRuns | run_simulations.py:140-156 | nparLD launches one run and a GPC method two. Every run is of the method itself with the type-I-error settings. |
| RunSimulations.AlphaPlanCounts | run_simulations.py:129-160 | The table has twelve rows. |
| RunSimulations.GpcRowsReadRuns | run_simulations.py:149-160 | The one-sided row reads the `-u 1` run's files in `one-sided-<method>`, then the two-sided row reads the files in `<method>`, both for `combined`. The two directories differ. |
| RunSimulations.GluedTokens | run_simulations.py:49-51 | For options starting with `-t `, prefixing `-r` with no space turns the first token `-t` into `-r-t`. |
| RunSimulations.BasicSettingsFuse | run_simulations.py:49-63 | As written, every power and type-I-error setting's first token is `-r-t`, where the options alone start with `-t`. |
| RunSimulations.CorrectedSettingsTokens | run_simulations.py:49-63 | With basic settings `-r `, every setting passes `-r` as its own token, followed by the options' tokens. |

## Left out

- Process and file-system effects are outside the model:
  - starting `Rscript` and echoing its standard error;
  - opening and writing the output files;
  - `makedirs`, `rmtree` and `mkdir`.
  `Simulation.Launch` calls the launcher and discards its result, as the power loops do.
- JSON parsing is not modelled: a loaded file is given as a parsed record.
- Rejection rates are opaque values; the scripts never compute with them.
- pandas `DataFrame` and `MultiIndex` are modelled only as far as the builder relies on them:
  - the frame holds a row index, a column index and a grid of cells;
  - a frame built from no data rows is all NaN;
  - an empty multi-level index raises.
- `prepare_power_table_segment`, `prepare_alpha_error_table` and the table writers are imported from `utils` but not part of this model. The plans stop at the lists handed to them.
- `utils/write_latex.py`, `write_latex.py`, `master.py` and `temp.py` are not part of this model: they are LaTeX rendering and subprocess glue.
- `genenerate_combined_power_table` (power_table.py:61-91) is not modelled: it is a LongTable demo with dummy rows.
- The wins-table, p-value-table and boxplot functions are not modelled: each only starts an R script.
- The `__main__` blocks are not modelled, except the method list behind `Reproduce.AlphaPlanCounts8`. Their captions and table numbers are data.
- The trailing blank `print()` of power_table.py is not modelled.
- `PowerRecords.PowerRecord` (its `power` list) and `Simulation.Settings` are association lists and admit a repeated key. A Python dict, and the dict `json.load` returns, keep one entry per key: the first position with the last value. The model walks every pair in order, so for a list with a repeated key it yields one more label (or launches one more run) than the script would. Input with a repeated key is outside what the model describes.

## Findings

| source | as written | input that shows it | evidently intended | confidence | as-written member | corrected member |
|---|---|---|---|---|---|---|
| reproduce.py:166-176 | Without an extra dataset, `os_subdir` stays equal to `subdir`. The one-sided run writes into the two-sided directory, the two-sided run then overwrites it, and the one-sided row reads the two-sided results. | `generate_alpha_error_table(9, caption_9)`, method `univariate-matched-gpc`: both runs write under `raw-output/univariate-matched-gpc`. | The one-sided directory always carries the one-sided mark, as it does with a dataset and in `reproduce_all_tables.py`. | not executed | Reproduce.OneSidedDirCollides | Reproduce.CorrectedOneSidedSeparate |
| run_simulations.py:49 | `BASIC_SETTINGS = "-r"` is prefixed to options that start with `-t` with no separator, so `split()` yields the token `-r-t`. | The setting `"-r" + "-t Pruritus"` splits into `-r-t`, `Pruritus`. | `-r` and `-t` as separate flags, i.e. the basic settings `-r `. | not executed | RunSimulations.BasicSettingsFuse | RunSimulations.CorrectedSettingsTokens |
