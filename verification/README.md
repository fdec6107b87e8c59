# BENCHMARK_ODE run harness, modelled in Dafny

BENCHMARK_ODE benchmarks methods that recover ordinary differential equations from data. This project models the part of the harness around the PySINDy runner that decides what a run does:

- **Configuration** (`runners/_base/configio.py`):
  - the fallback line-oriented YAML parser `_simple_yaml_load`, with its indentation stack and `parse_scalar`;
  - the recursive `deep_merge`, in which the override wins;
  - `load_yaml` and `load_json_override` around them.
- **Datasets** (`runners/_base/dataio.py`):
  - the `SystemSpec` defaults read from `system.yaml`;
  - the first-match search for `ds_<id>.npz|.npy|.csv`;
  - how `load_X` dispatches on the suffix, reshapes 1-D data into one column, picks the npz member and selects CSV columns;
  - the column-count guard `validate_X`.
- **The runner** (`runners/pysindy/run.py`):
  - the three-layer configuration and the dt fallback in `main`;
  - the selector checks in `build_model`;
  - the accessor fallback in `extract_coef`;
  - the untimed warmup loop and the timed repetition loop, with the record and exit code they yield.

The model has five modules, one file each:

- `Py` (`py.dfy`): the Python built-ins the harness relies on.
  - Configuration values, exceptions as (class name, message), truthiness and `str()`.
  - The `str` methods `strip`, `lstrip`, `rstrip`, `lower` and `split(sep, 1)`.
  - The int and float literal grammar.
- `PosixPath` (`posixpath.dfy`): `os.path.join` and `basename`.
- `ConfigIO` (`configio.dfy`): `configio.py`.
- `DataIO` (`dataio.dfy`): `dataio.py`.
- `PySindyRun` (`run.dfy`): `run.py`.

Code that changes state step by step is modelled as a method proved equal to a specification function. The function's properties are then proved as lemmas. The pairs are:

| method | function | source |
|---|---|---|
| `SimpleYamlLoad` | `Load` | `_simple_yaml_load` |
| `DeepMerge` | `Merged` | `deep_merge` |
| `ResolveDataPath` | `ResolvedPath` | `resolve_data_path` |
| `RunHarness` | `RunSpec` | `main` |

The parser's nested dicts are reached through references held on its stack. The model represents each stack frame by the key path from the root to its dict; `ConfigIO.Path` reads that path off the frames' keys. The stack is always a chain of ancestors, so the two are equivalent.

The `record` dict of `main` is the class `RunRecord`. The repetition loop appends to its duration lists in place; the warmup loop does not touch it.

Everything outside the process is a parameter:

- which paths exist;
- the contents of the YAML and data files;
- what `yaml.safe_load` and `json.loads` return;
- the outcome of each `fit` call, in order;
- the successive readings of `time.perf_counter_ns()`;
- the two environment variables.

Two behaviours of the code worth stating plainly:

- **Quotes.** `parse_scalar` strips every surrounding `"` and then every surrounding `'` (`runners/_base/configio.py:26`).
- **Exceptions before the `try`.** A missing dataset, a failing override or a missing dt raises before the `try` at `runners/pysindy/run.py:169`, so no record is written. `main` returns no exit code; the process then exits with status 1, which is not modelled.

## Model

| member | source | states |
|---|---|---|
| `ConfigIO.StripQuotes` | runners/_base/configio.py:26 | the result never starts or ends with a single quote |
| `ConfigIO.StripQuotesOrder` | runners/_base/configio.py:26 | all surrounding double quotes are removed first, then all surrounding single quotes: any run of `'` inside any run of `"` around a text comes off entirely |
| `ConfigIO.StripQuotesKeepsInner` | runners/_base/configio.py:26 | around a text wrapped in single quotes outside double quotes, only the single quotes come off and every double quote stays |
| `ConfigIO.ParseScalar` | runners/_base/configio.py:17-26 | a scalar is always a bool, int, float or string, never a mapping |
| `ConfigIO.ParseScalarKinds` | runners/_base/configio.py:18-26 | after trimming: a bool exactly for true/false in any letter case; a float exactly when the text has a '.' and is a float literal; an int exactly when there is no '.' and the text is an int literal written with ASCII digits; otherwise the text without surrounding quotes, so "1.2.3" stays a string |
| `ConfigIO.ParseScalarIntText` | runners/_base/configio.py:21-24 | an integer literal written with ASCII digits and signs reads as its value |
| `ConfigIO.ParseScalarReadsInt` | runners/_base/configio.py:21-24 | `str(n)` of any int reads back as `n` |
| `ConfigIO.ParseScalarBoolText` | runners/_base/configio.py:18-20 | any letter-case spelling of true/false reads as the matching bool |
| `ConfigIO.ParseScalarReadsBool` | runners/_base/configio.py:19-20 | `str(b)` ("True"/"False") reads back as `b` |
| `ConfigIO.ParseScalarIgnoresPadding` | runners/_base/configio.py:18 | leading whitespace does not change the parsed value |
| `ConfigIO.PutAt` | runners/_base/configio.py:47-51 | writing into a nested dict adds the key at the top level only when the path is empty, and otherwise keeps the root's keys |
| `ConfigIO.DictPathPrefix` | runners/_base/configio.py:43-45 | every frame left after popping still names a dict reachable from the root |
| `ConfigIO.PutAtWrites` | runners/_base/configio.py:45-51 | `cur[k] = v` changes the current dict by exactly that assignment, and the dict stays reachable |
| `ConfigIO.PutAtElsewhere` | runners/_base/configio.py:45-51 | every dict of the tree that is not the written one, not one of its ancestors and not inside the written key is unchanged by `cur[k] = v` |
| `ConfigIO.PutAtAncestor` | runners/_base/configio.py:45-51 | each ancestor of the written dict keeps its keys and every entry except the one leading down to the written dict |
| `ConfigIO.PutAtNewDict` | runners/_base/configio.py:47-49 | after `cur[k] = {}` the new dict is reachable one key further down and is empty |
| `ConfigIO.PopFrames` | runners/_base/configio.py:43-44 | popping leaves a prefix of the stack whose top indent is at most the line's indent |
| `ConfigIO.PopKeepsBottom` | runners/_base/configio.py:29-45 | a non-negative indent never pops the bottom frame `(0, root)` |
| `ConfigIO.Classify` | runners/_base/configio.py:32-41 | a line is skipped exactly when its trimmed text is empty, starts with '#' or has no ':'; otherwise the indent counts leading spaces, the key is the trimmed text before the first ':' and the value the trimmed rest |
| `ConfigIO.SkippedLineKeepsState` | runners/_base/configio.py:32-38 | blank, comment and colon-less lines leave the root and the stack unchanged |
| `ConfigIO.PopKeepsWellFormed` | runners/_base/configio.py:43-45 | popping keeps the stack invariant (bottom frame kept, indents strictly increasing, top dict reachable) and leaves the top indent at most the line's |
| `ConfigIO.WriteKeepsWellFormed` | runners/_base/configio.py:47-51 | writing a scalar, or writing `{}` and pushing it at indent+2, keeps the stack invariant |
| `ConfigIO.ApplyKeepsWellFormed` | runners/_base/configio.py:43-51 | every line keeps the stack invariant |
| `ConfigIO.ApplyWritesEntry` | runners/_base/configio.py:43-51 | an entry line pops, then sets key := `{}` or the parsed scalar in the top dict (overwriting a repeated key), and pushes a frame at indent+2 exactly for an empty value |
| `ConfigIO.ApplyLeavesRest` | runners/_base/configio.py:43-51 | a key line leaves every other dict of the tree unchanged, and each ancestor of the written dict changes only in the entry leading to it |
| `ConfigIO.EntryTextEnds` | runners/_base/configio.py:33-37 | a `key: value` text is non-blank, is not a comment and contains ':' |
| `ConfigIO.EntryLineTrims` | runners/_base/configio.py:32-36 | reading `<pad>key: value\n` drops the newline and measures the padding as its indent |
| `ConfigIO.EntryTextSplits` | runners/_base/configio.py:39-41 | splitting at the first ':' gives back the key and the value |
| `ConfigIO.ClassifyEntryLine` | runners/_base/configio.py:32-41 | the line `<pad>key: value` classifies as an entry with that indent, key and value |
| `ConfigIO.Run` | runners/_base/configio.py:31-51 | reading any sequence of lines keeps the stack invariant |
| `ConfigIO.PopTo` | runners/_base/configio.py:43-44 | the pop loop computes `PopFrames` |
| `ConfigIO.WriteEntry` | runners/_base/configio.py:45-51 | one write (and push) equals the specification step for an entry |
| `ConfigIO.LoadLine` | runners/_base/configio.py:31-51 | one loop iteration equals the specification step for that line |
| `ConfigIO.SimpleYamlLoad` | runners/_base/configio.py:9-52 | the parser returns `Load(lines)`, the specification fold over the lines |
| `ConfigIO.LoadOpensDict` | runners/_base/configio.py:47-49 | `a:` at the top opens an empty dict `a` and pushes it at indent 2 |
| `ConfigIO.LoadWritesChild` | runners/_base/configio.py:45-51 | a two-space-indented entry under an open dict is written into that dict |
| `ConfigIO.ApplyUnderOpen` | runners/_base/configio.py:43-51 | a classified entry at indent 2 under the open dict `a` pops nothing, lands in `a` and keeps the stack |
| `ConfigIO.LoadPopsToRoot` | runners/_base/configio.py:43-45 | an entry indented by one space pops back to the root and is written there, not into the open dict |
| `ConfigIO.LoadWritesChildren` | runners/_base/configio.py:47-51 | two indented entries are both written into the open dict |
| `ConfigIO.LoadNested` | runners/_base/configio.py:28-52 | "a:\n  b: vb\n  c: vc\n" yields {a: {b: vb, c: vc}} with parsed scalars |
| `ConfigIO.WriteTwoChildren` | runners/_base/configio.py:51 | two writes into the empty dict `a` give the two-entry dict |
| `ConfigIO.LoadOneSpaceChild` | runners/_base/configio.py:43-51 | "a:\n b: vb\n" puts `b` beside `a` at the root: nesting needs exactly two more spaces |
| `ConfigIO.DeepMerge` | runners/_base/configio.py:65-75 | the copy-and-assign loop computes `Merged(base, override or {})`, whose keys are the union of both |
| `ConfigIO.MergedLaws` | runners/_base/configio.py:69-75 | the keys are the union; keys only in base keep the base value; where both are dicts the value is their merge; otherwise the override value is taken as is |
| `ConfigIO.MergeEmptyOverride` | runners/_base/configio.py:69-70 | a `None` or empty override gives back base |
| `ConfigIO.MergeIdempotent` | runners/_base/configio.py:65-75 | merging a config with itself gives it back |
| `ConfigIO.MergeAssociative` | runners/_base/configio.py:65-75 | layering is associative when the two overrides never put a dict and a non-dict at the same key |
| `ConfigIO.MergeNotAssociativeExample` | runners/_base/configio.py:71-74 | without that condition, layering is not associative: a scalar in the middle layer cuts off the base's nested keys |
| `ConfigIO.LoadYaml` | runners/_base/configio.py:54-63 | a missing file is {}; when the full parser fails, the fallback parser's result is used |
| `ConfigIO.LoadJsonOverride` | runners/_base/configio.py:77-80 | the empty string gives {}; any other string gives what the JSON decoder gives |
| `ConfigIO.EmptyJsonOverrideKeepsConfig` | runners/_base/configio.py:77-79 | with no override string, merging the override leaves the config unchanged |
| `DataIO.OptionalValue` | runners/_base/dataio.py:27-29 | an optional field is None both when the key is absent and when it holds None |
| `DataIO.StrField` | runners/_base/dataio.py:23-26 | `str(cfg.get(key, default))` is the default when the key is absent and the text when it holds a string |
| `DataIO.SpecFromConfig` | runners/_base/dataio.py:20-30 | absent keys give name = basename of the directory, data_format "csv", has_header false, delimiter ",", and x_columns, dims and dt_default None; has_header is the truth value of what is given; dt_default is read from the key "dt"; x_columns, dims and dt keep whatever value is given, unchecked, with None read as absent |
| `DataIO.LoadSystemSpec` | runners/_base/dataio.py:20-30 | no contract of its own: `SpecFromConfig` applied to `system.yaml` as `load_yaml` reads it; `SpecFromConfig` and `MissingSystemYamlGivesDefaults` state its fields |
| `DataIO.MissingSystemYamlGivesDefaults` | runners/_base/dataio.py:10-30 | without a system.yaml every field takes its declared default |
| `DataIO.ResolveDataPath` | runners/_base/dataio.py:32-38 | the loop over the suffixes with its early return computes `ResolvedPath` |
| `DataIO.FirstExistingIsFirst` | runners/_base/dataio.py:34-37 | the search succeeds exactly when some candidate exists, and returns the earliest existing one |
| `DataIO.ResolvedPathFirstMatch` | runners/_base/dataio.py:32-38 | base+".npz" if it exists, else base+".npy", else base+".csv"; FileNotFoundError "Dataset not found: <base>(.npz/.npy/.csv)" exactly when none exists |
| `DataIO.ReshapeColumn` | runners/_base/dataio.py:45-46 | a 1-D array of length n becomes n x 1 with row i = [x_i]; any other array is unchanged |
| `DataIO.ReshapeKeepsOrder` | runners/_base/dataio.py:45-46 | reshaping keeps the elements in row-major order |
| `DataIO.DataRows` | runners/_base/dataio.py:58 | the rows kept after dropping blank and comment lines are non-empty, and there are no more of them than lines |
| `DataIO.FirstGarbled` | runners/_base/dataio.py:58 | reading the text fails exactly when some line does not convert |
| `DataIO.Squeeze` | runners/_base/dataio.py:58 | the text's rows, with length-one axes squeezed out, are a valid array of at most two dimensions with the elements in file order |
| `DataIO.LoadTxt` | runners/_base/dataio.py:58 | a successful read is a valid array of at most two dimensions |
| `DataIO.FindEntry` | runners/_base/dataio.py:51 | finds the first archive member with the given name, or reports that none has it |
| `DataIO.FirstOutOfBounds` | runners/_base/dataio.py:62 | finds a requested column outside [-width, width) exactly when one exists |
| `DataIO.ColumnIndex` | runners/_base/dataio.py:62 | a column index in [-width, width) names a position inside the row, negative ones counted from the end |
| `DataIO.SelectColumns` | runners/_base/dataio.py:62 | `X[:, cols]` succeeds exactly on a 2-D array with every index in bounds, and then output column j is input column cols[j] (reordering and repeats allowed) |
| `DataIO.SelectColumnPicks` | runners/_base/dataio.py:62 | `X[:, c]` for one int succeeds exactly on a 2-D array with c in bounds, and gives column c as a 1-D array in row order |
| `DataIO.IndexColumns` | runners/_base/dataio.py:61-62 | an `x_columns` that is neither an int nor a list of ints is refused with numpy's IndexError |
| `DataIO.LoadX` | runners/_base/dataio.py:40-65 | no contract of its own: `load_X`, dispatching on the suffix; `LoadXRefusesOtherSuffixes`, `LoadNpyShapes`, `LoadNpzPicks`, `CsvSkipsHeader`, `CsvReshapes`, `CsvSelectsColumns`, `CsvRefusesOtherColumns` and `CsvSingleColumn` state its branches |
| `DataIO.LoadXRefusesOtherSuffixes` | runners/_base/dataio.py:43-65 | a path ending in none of .npy, .npz, .csv raises ValueError "Unsupported data format: <path>" |
| `DataIO.LoadNpyShapes` | runners/_base/dataio.py:43-47 | a 1-D .npy array becomes one column in order; other arrays are returned as stored, whatever x_columns says |
| `DataIO.LoadNpzPicks` | runners/_base/dataio.py:49-54 | an .npz gives its member "X" if it has one, else its first member in archive order; an empty archive raises |
| `DataIO.CsvSkipsHeader` | runners/_base/dataio.py:56-58 | with has_header, exactly the first line is skipped; without it, no line is skipped, so a header line is an error |
| `DataIO.CsvReshapes` | runners/_base/dataio.py:56-63 | without x_columns, a readable CSV file always loads: a 1-D result becomes n x 1 with row i = [x_i], anything else comes back as read, and the elements stay in row-major order |
| `DataIO.CsvSelectsColumns` | runners/_base/dataio.py:56-63 | with x_columns a list of ints, output column j of the CSV data is input column x_columns[j], and out-of-range columns raise |
| `DataIO.CsvRefusesOtherColumns` | runners/_base/dataio.py:56-63 | with x_columns neither an int nor a list of ints (such as the text the line parser makes of `[0, 1]`), a readable CSV file raises IndexError |
| `DataIO.CsvSingleColumn` | runners/_base/dataio.py:56-63 | with x_columns a single int, a readable CSV file gives that column as a 1-D array, or IndexError when it is out of bounds |
| `DataIO.SingleCsvRowBecomesColumn` | runners/_base/dataio.py:56-60 | a CSV with one data row of d >= 2 values is squeezed to 1-D and then reshaped to d x 1 (a single value squeezes to a 0-d array, which is not reshaped) |
| `DataIO.ValidateX` | runners/_base/dataio.py:67-69 | fails exactly when dims is set and the column count does not equal it as Python compares an int with that value (or X has fewer than two dimensions); the ValueError message gives `str(dims)` and the shape tuple |
| `PySindyRun.Section` | runners/pysindy/run.py:67 | an absent or false section reads as {}; a mapping reads as itself; any other true value fails on `.get` |
| `PySindyRun.Selector` | runners/pysindy/run.py:67-68 | the `type` selector takes its default when absent and the given string otherwise |
| `PySindyRun.BuildModel` | runners/pysindy/run.py:63-102 | no contract of its own: `build_model`; `BuildModelChoices`, `BuildModelReportsFirstBadSelector` and `DefaultModel` state what it builds and refuses |
| `PySindyRun.BuildModelChoices` | runners/pysindy/run.py:63-102 | succeeds exactly when differentiation is finite_difference or smoothed_finite_difference, library is polynomial and optimizer is stlsq; an unknown differentiation type raises a ValueError naming it; alpha, degree, include_bias and threshold take the defaults 0.0, 3, False and 0.1 |
| `PySindyRun.BuildModelReportsFirstBadSelector` | runners/pysindy/run.py:78-95 | after a valid differentiation, a bad library or then a bad optimizer raises its own ValueError naming the value |
| `PySindyRun.DefaultModel` | runners/pysindy/run.py:126-130 | the code defaults select finite differences, a degree-3 polynomial library without bias, and STLSQ at 0.1 |
| `PySindyRun.ExtractCoef` | runners/pysindy/run.py:104-109 | `coefficients()` when present (its failure propagates), else `model.coef_`, else AttributeError "Cannot find coefficients on this PySINDy model/version" |
| `PySindyRun.Warmups` | runners/pysindy/run.py:176-179 | no contract of its own: the first exception of n warmup iterations; `WarmupsStick`, `WarmupsOfFailedBuild` and `WarmupLoop` state its properties |
| `PySindyRun.Reps` | runners/pysindy/run.py:182-193 | no contract of its own: the repetitions' first exception, the number completed and the last coefficients; `RepsStick`, `RepsAdvance`, `RepsTimings`, `RepsKeepLast`, `RepsOfFailedBuild` and `RepLoop` state its properties |
| `PySindyRun.Fitting` | runners/pysindy/run.py:176-202 | no contract of its own: the `try` after validation; `FittingTimings`, `FittingSucceeds`, `FittingOfFailedBuild` and `FitBlock` state its properties |
| `PySindyRun.TrySpec` | runners/pysindy/run.py:169-202 | no contract of its own: the whole `try` body; `TryTimings`, `SuccessfulRecord`, `LoadFailureReported`, `TextColumnsReported` and `TryBlock` state its properties |
| `PySindyRun.Report` | runners/pysindy/run.py:203-214 | no contract of its own: the record and exit code after the `try`; `ReportNamesError` and `RecordRun` state them |
| `PySindyRun.RunSpec` | runners/pysindy/run.py:111-214 | no contract of its own: all of `main`; `OutcomeAndRecord`, `SuccessfulRun`, `DatasetMissingEscapes`, `OverrideFailureEscapes`, `DtRequiredEscapes` and `RunHarness` state its properties |
| `PySindyRun.WarmupLoop` | runners/pysindy/run.py:176-179 | the warmup loop gives the first exception of its iterations, if any |
| `PySindyRun.TimedRun` | runners/pysindy/run.py:184-189 | one repetition's result, and its two durations from its own three clock readings |
| `PySindyRun.RepLoop` | runners/pysindy/run.py:182-193 | the timed loop fills the record's duration lists and keeps the last coefficients as `Reps` specifies |
| `PySindyRun.FitBlock` | runners/pysindy/run.py:176-204 | the loops and the save, after validation, set the record's durations, coef_shape and ok flag and leave the coefficient file as `Fitting` specifies |
| `PySindyRun.TryBlock` | runners/pysindy/run.py:169-206 | the `try` body sets the record's shapes, durations and ok flag as `TrySpec` specifies |
| `PySindyRun.RecordRun` | runners/pysindy/run.py:141-214 | from the record's creation on, `main` writes the one record and returns the exit code that `Report` gives for the `try`'s result |
| `PySindyRun.PrepareRun` | runners/pysindy/run.py:117-139 | everything before the `try` computes `Prepare` |
| `PySindyRun.RunHarness` | runners/pysindy/run.py:111-214 | `main` computes `RunSpec`: the escaping exception, or the exit code, the records written and the coefficient file |
| `PySindyRun.RunRecord.constructor` | runners/pysindy/run.py:141-167 | the record starts with empty duration lists, ok false and no error, shapes or coefficients |
| `PySindyRun.WarmupsStick` | runners/pysindy/run.py:176-179 | after a warmup iteration raises, no later one runs |
| `PySindyRun.RepsStick` | runners/pysindy/run.py:182-193 | after a repetition raises, no later one runs and the durations stay as they were |
| `PySindyRun.RepsAdvance` | runners/pysindy/run.py:182-193 | a repetition that raises ends the loop with the durations so far; one that succeeds adds its own init and fit durations and becomes the last coefficients |
| `PySindyRun.RepsTimings` | runners/pysindy/run.py:182-193 | no more repetitions complete than are run; when none raised, all completed, and coefficients are kept exactly when at least one repetition ran |
| `PySindyRun.TimesAt` | runners/pysindy/run.py:184-189 | duration k is taken from clock readings 3k, 3k+1 and 3k+2: init = t1 - t0, fit = t2 - t1 |
| `PySindyRun.RepsKeepLast` | runners/pysindy/run.py:182-193 | the kept coefficients are those of the final repetition |
| `PySindyRun.WarmupsOfFailedBuild` | runners/pysindy/run.py:176-179 | a model that cannot be built fails the first warmup iteration |
| `PySindyRun.RepsOfFailedBuild` | runners/pysindy/run.py:183-186 | a model that cannot be built fails the first repetition before any duration is recorded |
| `PySindyRun.MergeLookup` | runners/pysindy/run.py:131-132 | one merge: the override's value at [section][key] wins, and elsewhere the base's stays |
| `PySindyRun.ThreeLayerPrecedence` | runners/pysindy/run.py:126-132 | in defaults, then the method config, then the override, a setting takes the override's value if it has one, else the method config's, else the default |
| `PySindyRun.ConfigPrecedence` | runners/pysindy/run.py:122-132 | the three layers of `main` are the code defaults, `configs/<method>.yaml` and the JSON override, in that precedence |
| `PySindyRun.Prepare` | runners/pysindy/run.py:117-139 | no contract of its own: `main` up to the `try`; `PrepareOrder`, `DtPrecedence`, `DtAddedToConfig` and `PrepareRun` state what it gives |
| `PySindyRun.Settle` | runners/pysindy/run.py:119-139 | no contract of its own: the order of the failures before the `try`, stated by `PrepareOrder` |
| `PySindyRun.PrepareOrder` | runners/pysindy/run.py:117-139 | a missing dataset raises first; with the dataset found, a failing override raises next; with both settled, a missing dt raises `ValueError("dt is required: ...")` |
| `PySindyRun.DatasetMissingEscapes` | runners/pysindy/run.py:119 | a missing dataset's FileNotFoundError escapes before the `try`, with no record and no coefficient file written |
| `PySindyRun.OverrideFailureEscapes` | runners/pysindy/run.py:119-132 | with the dataset found, an override the JSON decoder refuses escapes before the `try`, with nothing written |
| `PySindyRun.DtPrecedence` | runners/pysindy/run.py:135 | dt is `--dt` when given, else system.yaml's |
| `PySindyRun.DtAddedToConfig` | runners/pysindy/run.py:139 | `cfg["dt"]` is set to the dt settled on, on top of the layered configuration |
| `PySindyRun.DtRequiredEscapes` | runners/pysindy/run.py:135-137 | with neither `--dt` nor a dt in system.yaml, the ValueError escapes before the `try`, and no record and no coefficient file are written |
| `PySindyRun.OutcomeAndRecord` | runners/pysindy/run.py:169-214 | an exception before the `try` escapes as itself with nothing written; otherwise exactly one record is written, exit code 0 exactly when it says ok, ok exactly when the `try` raised nothing, and on failure error_type and error_msg are the raised exception's class name and message; the coefficient file is the one the `try` left |
| `PySindyRun.ReportNamesError` | runners/pysindy/run.py:203-214 | the record written after the `try` carries ok, and on failure the exception's class name and message, and the exit code is 0 or 2 accordingly |
| `PySindyRun.FittingTimings` | runners/pysindy/run.py:176-202 | after validation the `try` records as many init as fit durations, at most one per repetition, and duration k is the init and fit time of repetition k from its own clock readings |
| `PySindyRun.FittingSucceeds` | runners/pysindy/run.py:176-202 | when nothing raises after validation, rep > 0, there is one init and one fit duration per repetition and none for the warmup, and the saved coefficients and coef_shape are the final repetition's |
| `PySindyRun.FittingOfFailedBuild` | runners/pysindy/run.py:176-200 | a model that cannot be built raises in the first warmup or repetition with no duration recorded; with neither loop running, `np.save` writes None and `np.abs(None)` raises TypeError |
| `PySindyRun.TryTimings` | runners/pysindy/run.py:169-202 | the whole `try` records paired durations, at most one pair per repetition; when the data fails to load or validate, the error is recorded with no durations and no X shape |
| `PySindyRun.SuccessfulRecord` | runners/pysindy/run.py:182-206 | a `try` that raises nothing writes a record with rep pairs of durations from their own readings, and the coefficient file and coef_shape of the final repetition |
| `PySindyRun.SuccessfulRun` | runners/pysindy/run.py:182-206 | exit code 0 means rep > 0 and len(t_init_ns) = len(t_fit_ns) = rep, each duration from its own repetition's readings, and the coefficient file and coef_shape come from the final repetition |
| `PySindyRun.BadSelectorReported` | runners/pysindy/run.py:176-186 | a refused selector is reported as the record's error (exit 2) when a warmup or a repetition runs; with warmup = rep = 0 the model is never built and the run fails instead with TypeError after saving None |
| `PySindyRun.LoadFailureReported` | runners/pysindy/run.py:169-173 | a dataset `load_X` cannot load is recorded inside the `try` with its exception, no X shape, no durations and no coefficient file, and the exit code is 2 |
| `PySindyRun.TextColumnsReported` | runners/pysindy/run.py:169-173 | a CSV run whose x_columns is neither an int nor a list of ints is recorded with IndexError and exits with 2 |

## Left out

- File and OS I/O are not modelled: `open`, `os.path.exists`, `os.makedirs`/`ensure_parent`, `write_jsonl` and `np.save` never fail here. The writes are the `written` and `coefFile` parts of the outcome.
- Library parsers:
  - `yaml.safe_load` and `json.loads` are supplied results.
  - A document that decodes to something other than a mapping or null is not modelled.
  - `load_yaml`'s fallback applies when the full parser fails or is missing.
  - Dict insertion order is not modelled: configs are maps.
- numpy:
  - `np.load` and `np.loadtxt` are modelled by what they yield: an array, an ordered archive, or text lines already split into fields by the delimiter.
  - Splitting by `spec.delimiter` and the float conversion of fields are not modelled.
  - numpy's own error messages are approximated.
  - An empty CSV is taken to read as a 1-D array of length 0.
- `LoadX`: a file whose content does not match its suffix raises an approximate exception, and the one for binary content under a `.csv` name is a placeholder.
- `DataIO.IndexColumns`: a bool, or a list holding a bool or a non-int value, as `x_columns` is modelled as numpy's IndexError for a non-integer index; numpy treats bools as a mask or a new axis and converts some mixed lists.
- `DataIO.ValidateX`: a float `dims` compares unequal to the column count in the model; Python compares it by numeric value, so `dims: 2.0` passes there.
- `ConfigIO.ParseScalarKinds`: `int()` is modelled as accepting ASCII digits only; Python's `int()` also accepts every other Unicode decimal digit, so a value such as "１２" (fullwidth digits) is the int 12 in Python and the string "１２" in the model.
- `ConfigIO.ParseScalar`: Python's limit on int conversion (4300 digits, in CPython 3.11 and later and in some 3.7-3.10 security releases) is not modelled; a longer int literal is read as an int here, where that Python returns the text.
- `ConfigIO.ParseScalarReadsInt`: holds for every int in the model; under the same digit limit `str(n)` itself raises for an int of more than 4300 digits.
- Floating point:
  - floats are kept as their decimal literal;
  - `parse_scalar`'s `float()` is modelled as recognising Python's float literal syntax with ASCII digits;
  - non-ASCII digits, which Python also accepts, are not modelled;
  - a literal like "1e-400", which is truthy in the model but underflows to 0.0 in Python, is not modelled.
- `PySindyRun.BuildModelChoices`: the `float()`/`int()` conversions of alpha, degree and threshold, and the exceptions they can raise, are not modelled; the values are carried as given.
- `RunSpec`: `float(dt)` is not modelled; the dt value is carried as given and its conversion error is not modelled.
- `PySindyRun.BuildModel` returns the chosen configuration, not pysindy objects. The `PolynomialLibrary` TypeError retry (runners/pysindy/run.py:84-87) is internal to pysindy and is not modelled.
- `Py.PyStr`: `str()` of a list or mapping is a fixed marker rather than Python's repr, and `str()` of a float is the literal it was read from rather than Python's repr of the float ("1.50" prints as `1.5` in Python, "1_0.5" as `10.5`, "1.0e5" as `100000.0`). Both reach the text of `Selector`'s selector values and error messages, of `StrField`'s name, data_format and delimiter, and of `ValidateX`'s `spec.dims=...` message.
- Record fields left out:
  - the coefficient norms `coef_l1`/`coef_l2`;
  - the timestamp, host, pid, Python version and dependency versions;
  - the traceback.
- `argparse` is not modelled: the parsed arguments are given.
- `main`'s exit via `SystemExit` is not modelled.
