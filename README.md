# pype core, modelled in Dafny

pype is a Python library for standardised machine-learning experiments. It covers:

- reading named data sources into a `DataSet`;
- fitting a pipeline and a model;
- evaluating and logging the results;
- deriving command-line options from the constructor signatures of the model and pipeline classes;
- packaging a finished experiment as a wheel;
- serving it behind a FastAPI app that copies prediction data to tracking sinks.

This project models the parts of that code that decide something, and proves what they promise. They are:

| Module (file) | Source file | What it models |
|---|---|---|
| `DataSets` (dataset.dfy) | `DataSet` | A class over a `map<string, D>`. `get_all` is a function. `set_all` is a loop proved against `ZipWrite`. `copy` returns a fresh object. |
| `DataSetSources` (dataset_source.dfy) | `DataSetSource.read` | The read of each source is a function parameter. |
| `SparkTypeChecking` (spark_type_checker.dfy) | `SparkTypeChecker` | A frame is a sequence of named, typed columns. `fit` stores the signature in the checker's `rawTypes` field. `transform`'s presence and dtype loops are methods proved against the `Check` function. |
| `Experiments` (experiment.dfy) | `Experiment` | The constructor's checks and defaults. The order of calls in `run`, as a trace of events over abstract collaborators: source read, pipeline fit and transform, model fit, evaluation, and the experiment logger. |
| `ExperimentArgs` and `ExperimentArgsProperties` (cmd_args.dfy) | `Experiment._get_cmd_args` and its helpers | The recursive walk over classes, base classes and pipeline trees that fills one `ArgumentParser`. It is modelled as an `ArgParser` class whose methods append to its `arguments` and `warnings`. Each method is proved against a derivation function. The derivation takes a `Rule`: `AsWritten` is the code as it stands, which the parser methods follow; `Intended` is the corrected `Iterable` test (see Findings). |
| `Packaging` (packaging.dfy) | both wheel builders | The shared string rules: which requirement lines count, the `'", "'` join, template substitution, and the default output directory. |
| `WheelBuilding` (wheel_builder.dfy) | `WheelBuilder` | Validation and defaults on construction, with `_validate_extensions` as nested loops. The dependency list of `build`, what the extensions' `extend` calls do to it, and the setup-file text. |
| `Wheel` (wheel.dfy) | `make_wheel` | The requirements string and the setup-file text, as written and as evidently intended (see Findings). |
| `Serving` (app.dfy) | `PypeApp` | Choosing a dataset for each tracking sink. Each sink is handled in its own `try`. Background tasks accumulate in a `BackgroundTasks` object and log records in a `Logger` object. Also the field-presence warnings and the home page. |

`Results`, `Dicts`, `Paths` and `Text` are shared helpers:

- `Results`: Option, Result and pass/fail values.
- `Dicts`: Python dicts whose order matters, as association lists with distinct keys.
- `Paths`: `pathlib.Path` as a root plus appended segments.
- `Text`: `in` on strings, `str.replace` and `str.join`.

I/O, reflection and third-party code enter only as parameters:

- **File contents:** the requirement lines and the setup template.
- **Values the code computes from its environment:**
  - the current directory;
  - the directory of builder.py;
  - the field names of the pydantic input and output models.
- **Collaborators, as functions:**
  - `DataSource.read`;
  - `Pipeline.fit` and `transform`;
  - `Model.fit`;
  - `Evaluator.evaluate`;
  - the `str()` of an annotation;
  - the exception `BackgroundTasks.add_task` may raise.

Classes and parameters that the code inspects through `inspect` and `typing` become datatypes (`PyClass`, `Param`, `Annotation`).

## Model

| member | source | states |
|---|---|---|
| DataSets.DataSet.GetAll | pype/base/data/dataset.py:15-24 | Succeeds exactly when every requested key is present. It then returns one value per key, in request order. Otherwise it raises `KeyError` for the first absent key, with every earlier key present. It reads the DataSet and does not change it. |
| DataSets.DataSet.SetAll | pype/base/data/dataset.py:26-36 | The new mapping is the old one with the pairs of `zip(keys, data)` written from left to right (`ZipWrite`). |
| DataSets.ZipWriteTruncates | pype/base/data/dataset.py:35-36 | Only the first min(\|keys\|, \|data\|) pairs are written. Surplus keys or values are ignored. |
| DataSets.ZipWriteKeys | pype/base/data/dataset.py:35-36 | The key set gains exactly the first min(\|keys\|, \|data\|) keys. |
| DataSets.ZipWriteFrame | pype/base/data/dataset.py:35-36 | A key outside the written prefix keeps its presence and its value. |
| DataSets.ZipWriteLastWins | pype/base/data/dataset.py:35-36 | When a key repeats, the value of its last written pair is kept. |
| DataSets.SetAllThenGetAll | pype/base/data/dataset.py:15-36 | Round trip: with distinct keys and as many values as keys, reading the written keys back gives the written values. |
| DataSets.SetAllDropsSurplusKey | pype/base/data/dataset.py:35-36 | `set_all(["a", "b"], [v])` writes "a" and leaves "b" as it was. |
| DataSets.DataSet.Copy | pype/base/data/dataset.py:38-46 | The copy is a fresh object with the same mapping, so later writes to it cannot reach the original. |
| DataSetSources.Read | pype/base/data/dataset_source.py:9-17 | The DataSet read has exactly the source names as keys. Each name maps to that source's `read()`. |
| DataSetSources.ReadEmpty | pype/base/data/dataset_source.py:17 | An empty DataSetSource reads to an empty DataSet. |
| DataSetSources.ReadThenGetAll | pype/base/data/dataset_source.py:17 | After a read, `get_all(keys)` succeeds exactly when every key names a source. It then gives each source's read in request order. |
| DataSetSources.DummyDataReads | tests/utils.py:81-85 | Reading `get_dummy_data(n, xo, yo)` gives keys {"x", "y"}, with `x[i] = i + xo` and `y[i] = i + yo` for i < n. |
| SparkTypeChecking.ConvertDtype | pype/spark/pipeline/spark_type_checker.py:57-70 | It accepts exactly "str", "int", "float", "double" and "bool". "float" and "double" both map to float. It returns the dtype string with its type. Any other string raises "`<t>` not supported". |
| SparkTypeChecking.ConvertDtypes | pype/spark/pipeline/spark_type_checker.py:54-55 | Every entry is converted in order, keeping its name. The first unsupported dtype raises. |
| SparkTypeChecking.FitSignature | pype/spark/pipeline/spark_type_checker.py:51 | The signature's keys are exactly the frame's column names, each once. On a frame with distinct column names, it succeeds exactly when every dtype is supported. It then maps each column, in column order, to its dtype string and that string's Python type. |
| SparkTypeChecking.SparkTypeChecker.Fit | pype/spark/pipeline/spark_type_checker.py:42-52 | On success it stores the signature in `rawTypes`. On failure it raises and leaves the checker as it was. It keeps the invariant that the stored keys are distinct. |
| SparkTypeChecking.Columns | pype/spark/pipeline/spark_type_checker.py:82-84 | `data.columns` lists the column names in column order. |
| SparkTypeChecking.Dtypes | pype/spark/pipeline/spark_type_checker.py:85 | `data.dtypes` lists the (name, dtype string) pairs in column order. Its keys are the columns. |
| SparkTypeChecking.FirstAbsent | pype/spark/pipeline/spark_type_checker.py:83-84 | Finds the first fitted column missing from the frame, or reports that none is missing. |
| SparkTypeChecking.FirstMismatch | pype/spark/pipeline/spark_type_checker.py:89-93 | Finds the first fitted column whose dtype string in the frame is not exactly the fitted one, or reports that all match. |
| SparkTypeChecking.Find | pype/spark/pipeline/spark_type_checker.py:87 | The column `select` picks for a name is a column of the frame with that name and that name's dtype. |
| SparkTypeChecking.Select | pype/spark/pipeline/spark_type_checker.py:87 | Returns one column per requested name, in request order. |
| SparkTypeChecking.Check | pype/spark/pipeline/spark_type_checker.py:82-94 | Passes exactly when every fitted column is present and has exactly its fitted dtype string. It then returns the fitted columns, in fitted order, and nothing else. |
| SparkTypeChecking.CheckMissing | pype/spark/pipeline/spark_type_checker.py:83-84 | The first absent fitted column is the one reported, with the message "`col` is missing from the dataset". |
| SparkTypeChecking.CheckMismatch | pype/spark/pipeline/spark_type_checker.py:89-93 | With all columns present, the first mismatch is reported with the fitted and the actual dtype string. |
| SparkTypeChecking.CheckPass | pype/spark/pipeline/spark_type_checker.py:87-94 | When all checks pass, the result is the frame projected onto the fitted names. |
| SparkTypeChecking.SparkTypeChecker.Transform | pype/spark/pipeline/spark_type_checker.py:72-94 | An unfitted checker raises. Otherwise the result is `Check` of the fitted signature on the frame, computed by the two loops and the projection. |
| SparkTypeChecking.ScanMissing | pype/spark/pipeline/spark_type_checker.py:83-84 | The presence loop stops at exactly the first absent column. |
| SparkTypeChecking.ScanMismatch | pype/spark/pipeline/spark_type_checker.py:89-93 | The dtype loop stops at exactly the first mismatch. |
| SparkTypeChecking.FitThenTransform | pype/spark/pipeline/spark_type_checker.py:42-94 | Transforming the frame the checker was fitted on succeeds. |
| SparkTypeChecking.FindAt | pype/spark/pipeline/spark_type_checker.py:87 | With distinct names, selecting a column's name finds that very column. |
| SparkTypeChecking.DtypeOfColumn | pype/spark/pipeline/spark_type_checker.py:85 | With distinct names, `dict(data.dtypes)` gives each column its own dtype. |
| SparkTypeChecking.SelectAll | pype/spark/pipeline/spark_type_checker.py:87 | With distinct names, selecting all columns in order returns the frame. |
| SparkTypeChecking.TransformIdempotent | pype/spark/pipeline/spark_type_checker.py:72-94 | With distinct names, transforming a transformed frame passes and returns it unchanged. |
| SparkTypeChecking.DoubleRejectsFloat | pype/spark/pipeline/spark_type_checker.py:89-93 | The comparison is on strings. A column fitted as "double" rejects a "float" column, though both map to float. |
| Experiments.Configure | pype/base/experiment/experiment.py:56-69 | Fails with "Must provide a 'train' entry in the data_sources dictionary." exactly when there is no "train" source. Otherwise: <ul><li>missing extra files default to [];</li><li>missing parameters default to {} and a warning is recorded;</li><li>a string output folder becomes a Path.</li></ul> |
| Experiments.Experiment.New | pype/base/experiment/experiment.py:22-81 | Raises exactly when `Configure` fails, before any warning. Otherwise it returns a fresh experiment holding the configured fields and an empty trace, and reports the missing-parameters warning exactly when no parameters were given. |
| Experiments.Experiment.constructor | pype/base/experiment/experiment.py:71-81 | Stores the validated configuration and the collaborators. |
| Experiments.Lookup | pype/base/experiment/experiment.py:94 | `d[key]` on a dict holding the key yields an entry of that key. |
| Experiments.ReadAll | pype/base/experiment/experiment.py:91 | One read dataset per source, with the same names in the same order. |
| Experiments.TransformAll | pype/base/experiment/experiment.py:97 | Every dataset is transformed by the given pipeline, keeping names and order. |
| Experiments.EvaluateAll | pype/base/experiment/experiment.py:103 | Every dataset is evaluated with the given model, keeping names and order. |
| Experiments.Experiment.Run | pype/base/experiment/experiment.py:83-120 | Appends exactly `RunEvents` to the trace. It leaves behind the pipeline fitted on "train" and the model fitted on the transformed "train". It returns the metrics of every dataset. |
| Experiments.Experiment.FitCalls | pype/base/experiment/experiment.py:89-100 | The load, pipeline-fit, transform and model-fit calls, with the values they carry. |
| Experiments.Experiment.LogCalls | pype/base/experiment/experiment.py:102-119 | The evaluation and logging calls, in order. |
| Experiments.LookupMapped | pype/base/experiment/experiment.py:91-94 | `datasets["train"]` is the read of the "train" source. |
| Experiments.LookupTransformed | pype/base/experiment/experiment.py:97-100 | `transformed["train"]` is the transform of `datasets["train"]`. |
| Experiments.FitEventsShape | pype/base/experiment/experiment.py:89-100 | The logger is entered first. The pipeline fit comes right after the n reads, and the model fit right after the n transforms. |
| Experiments.FitEventsTransforms | pype/base/experiment/experiment.py:97 | Between the two fits, each dataset is transformed by the fitted pipeline, in order. |
| Experiments.FitEventsKinds | pype/base/experiment/experiment.py:89-100 | The only pipeline fit, transforms and model fit sit at those positions. Nothing is evaluated before the model is fitted. |
| Experiments.LogEventsEvaluations | pype/base/experiment/experiment.py:103 | Evaluation comes first, once per read (untransformed) dataset, in order. |
| Experiments.LogEventsKinds | pype/base/experiment/experiment.py:102-119 | After the evaluations, the logging phase has no fit, transform or evaluation. |
| Experiments.LogEventsMetrics | pype/base/experiment/experiment.py:106-107 | Then the metrics are logged once per dataset, in order, under the dataset's name. |
| Experiments.LogEventsArtifacts | pype/base/experiment/experiment.py:109-114 | The model is logged at `of/"model"` and `of/"model_class"`, then the pipeline at `of/"pipeline"`, then the parameters. |
| Experiments.LogEventsFiles | pype/base/experiment/experiment.py:116-119 | The extra files are logged one by one in list order, and the logger is left last. |
| Experiments.TraceKinds | pype/base/experiment/experiment.py:89-117 | Across the whole run there is one pipeline fit, before every transform. There is one model fit, after every transform. Every evaluation comes after the model fit. |
| Experiments.TraceFits | pype/base/experiment/experiment.py:89-100 | The pipeline fit is at position n + 1 and carries the read "train" dataset. The model fit is at 2n + 2 and carries the transformed "train" dataset. |
| Experiments.TraceTransforms | pype/base/experiment/experiment.py:96-97 | Positions n + 2 to 2n + 1 transform each dataset with the fitted pipeline. |
| Experiments.TraceEvaluations | pype/base/experiment/experiment.py:102-103 | Positions 2n + 3 to 3n + 2 evaluate the fitted model on each dataset as read. |
| Experiments.TraceMetrics | pype/base/experiment/experiment.py:106-107 | Positions 3n + 3 to 4n + 2 log the metrics of each dataset. |
| Experiments.TraceArtifacts | pype/base/experiment/experiment.py:109-114 | Positions 4n + 3 to 4n + 5 log the model, the pipeline and the parameters. |
| Experiments.TraceFiles | pype/base/experiment/experiment.py:116-119 | The extra files follow in order, and leaving the logger is the last call. |
| Experiments.FittedOnTrain | pype/base/experiment/experiment.py:91-100 | The pipeline is fitted on the read "train" source. The model is fitted on that source after the fitted pipeline transforms it. |
| Experiments.MetricsPerSource | pype/base/experiment/experiment.py:103 | The returned metrics have exactly the data-source names as keys, in order. Each is the fitted model evaluated on that source as read. |
| ExperimentArgs.ArgParser.constructor | pype/base/experiment/experiment.py:222 | A new parser holds no option and no warning. |
| ExperimentArgs.ArgParser.AddArgForParam | pype/base/experiment/experiment.py:253-267 | One parameter, as written (`ParamDerived` under `AsWritten`): <ul><li>`self`/`cls` are skipped;</li><li>a scalar adds its option;</li><li>a list or tuple generic adds an option of its element type with nargs "+";</li><li>anything else, `Iterable[T]` included, adds only the warning with the annotation's `str()`.</li></ul> |
| ExperimentArgs.ArgParser.AddArgsForFunction | pype/base/experiment/experiment.py:250-267 | The parser gains `FunctionDerived` of the parameter list under `AsWritten`, in order. |
| ExperimentArgs.ArgParser.AddArgsForClass | pype/base/experiment/experiment.py:236-248 | The parser gains the class's own options. Then, for each `**kwargs` parameter, it gains those of each base not excluded, with the same prefix. |
| ExperimentArgs.ArgParser.AddArgsForBases | pype/base/experiment/experiment.py:246-248 | Walks the bases in order, skipping the excluded ones. |
| ExperimentArgs.ArgParser.AddArgsForPipeline | pype/base/experiment/experiment.py:228-234 | A pipe adds its operator class under `pipeline__<name>`. A nested pipeline is walked in place. |
| ExperimentArgs.GetCmdArgs | pype/base/experiment/experiment.py:220-226 | A fresh parser holding `CmdDerived` under `AsWritten`: the model class's options under "model", with `Model` excluded, followed by the pipeline's options. |
| ExperimentArgsProperties.FunctionArguments | pype/base/experiment/experiment.py:253-267 | Under either rule, an option is added exactly for each counted parameter whose annotation the rule supports. A warning naming the annotation is issued exactly for each counted parameter whose annotation it does not support. |
| ExperimentArgsProperties.ArgumentShape | pype/base/experiment/experiment.py:255-263 | The option is named `--<prefix>__<name>`. It takes nargs "+" exactly for a generic annotation, with the element as type. It is required exactly when the parameter has no default. |
| ExperimentArgsProperties.ClassPrefixed | pype/base/experiment/experiment.py:236-248 | Every option derived for a class, including through its bases, carries the class's prefix. |
| ExperimentArgsProperties.FunctionPrefixed | pype/base/experiment/experiment.py:255 | Every option of a function carries the given prefix. |
| ExperimentArgsProperties.KwargsPrefixed | pype/base/experiment/experiment.py:244-248 | Every option reached through `**kwargs` carries the prefix. |
| ExperimentArgsProperties.BasesPrefixed | pype/base/experiment/experiment.py:246-248 | Every option reached through a base class carries the prefix. |
| ExperimentArgsProperties.PipelinePrefixed | pype/base/experiment/experiment.py:228-234 | Every pipeline option starts with `--pipeline__`. |
| ExperimentArgsProperties.ModelArgumentsFirst | pype/base/experiment/experiment.py:220-226 | The model's options come first, all under `--model__`. Every later option is a pipeline option. |
| ExperimentArgsProperties.PipesDerivedAppend | pype/base/experiment/experiment.py:230-234 | Deriving a list of pipes distributes over concatenation. |
| ExperimentArgsProperties.PipelineFlattens | pype/base/experiment/experiment.py:228-234 | Walking the tree derives what one flat, depth-first pass over its pipes derives. Each pipe is under its own name, whatever its depth. |
| ExperimentArgsProperties.NoKwargsVisits | pype/base/experiment/experiment.py:244-245 | Without a `**kwargs` parameter, no base class is visited. |
| ExperimentArgsProperties.ExcludedBases | pype/base/experiment/experiment.py:247 | Bases that are all excluded contribute nothing. |
| ExperimentArgsProperties.BasesOnlyThroughKwargs | pype/base/experiment/experiment.py:240-248 | A class without `**kwargs`, or whose bases are all excluded, derives exactly its own parameters. |
| ExperimentArgsProperties.IterableParamWarns | pype/base/experiment/experiment.py:261 | As written, an `Iterable[T]` parameter gets only a warning. The intended derivation gives it an option of type T with nargs "+". |
| ExperimentArgsProperties.AsWrittenElsewhere | pype/base/experiment/experiment.py:259-267 | For every other annotation, the derivation as written and as intended agree. |
| ExperimentArgsProperties.FunctionAgrees | pype/base/experiment/experiment.py:250-267 | A parameter list with no counted `Iterable[T]` parameter derives the same under both rules. |
| ExperimentArgsProperties.ClassAgrees | pype/base/experiment/experiment.py:236-248 | The same for a class whose tree of bases has no such parameter. |
| ExperimentArgsProperties.KwargsAgrees | pype/base/experiment/experiment.py:244-248 | The same for the visits made through `**kwargs`. |
| ExperimentArgsProperties.BasesAgrees | pype/base/experiment/experiment.py:246-248 | The same for the visits of the bases. |
| ExperimentArgsProperties.PipelineAgrees | pype/base/experiment/experiment.py:228-234 | The same for a pipeline tree whose operator classes have no such parameter. |
| ExperimentArgsProperties.CmdAgrees | pype/base/experiment/experiment.py:220-226 | `_get_cmd_args` as written derives the intended options whenever neither the model class nor any operator class, bases included, has a counted `Iterable[T]` parameter. |
| ExperimentArgsProperties.IterableModelParamWarns | pype/base/experiment/experiment.py:259-267 | For a model whose only parameter is `x: Iterable[int]` and an empty pipeline, the parser as written holds no option and one warning. As intended it holds `--model__x`, required, taking one or more ints. |
| Packaging.Pinned | pype/base/deploy/wheel/builder.py:87 | Keeps exactly the lines containing "==", in file order, and never adds any. |
| Packaging.PinnedAppend | pype/base/deploy/wheel/builder.py:87 | Filtering distributes over concatenation, so the pinned lines keep their file order. |
| Packaging.StripNewlines | pype/base/deploy/wheel/builder.py:87 | The result contains no newline. |
| Packaging.StripAll | pype/base/deploy/wheel/builder.py:87 | Strips the newlines of each line, keeping the count and the order. |
| Packaging.StripJoin | pype/base/deploy/wheel.py:45 | Stripping newlines from the `'", "'` join equals joining the stripped lines, because the separator holds no newline. So both builders produce the same string for the same lines. |
| Packaging.FillRequirements | pype/base/deploy/wheel/builder.py:110-116 | A template holding one `{install_requires}` and no other brace gets the requirements string in its place. |
| Packaging.SubstitutionOrder | pype/base/deploy/wheel/builder.py:112-116 | The replacements run in the order install_requires, package_name, version, each over the whole text. So a `{version}` inside the requirements is itself replaced. |
| Packaging.OutputWheelFile | pype/base/deploy/wheel/builder.py:55-56 | A missing output directory defaults to `<cwd>/wheel_output`, and a given one is kept. `make_wheel` applies the same default at pype/base/deploy/wheel.py:34-35. |
| WheelBuilding.WithBase | pype/base/deploy/wheel/builder.py:57-60 | The extensions default to [] and always end up containing BaseExtension. It is appended at the end when absent. The list is unchanged when BaseExtension is already there. |
| WheelBuilding.Names | pype/base/deploy/wheel/builder.py:68-70 | Gives the extension names in order. |
| WheelBuilding.ValidateExtensions | pype/base/deploy/wheel/builder.py:63-77 | The nested loops compute `Validate`, stopping at the first duplicate with its message. |
| WheelBuilding.CheckFunctionality | pype/base/deploy/wheel/builder.py:72-77 | The loops over one extension's files and function names compute `ScanFunctionality`. |
| WheelBuilding.ScanImportsPass | pype/base/deploy/wheel/builder.py:73-77 | The function-name scan passes exactly when the names are distinct and none was seen before. It then adds them all to the seen set. |
| WheelBuilding.ScanFunctionalityPass | pype/base/deploy/wheel/builder.py:72-77 | The same holds over all files of one extension. |
| WheelBuilding.ScanPass | pype/base/deploy/wheel/builder.py:68-77 | The same holds over the extension list, for names and function names together. |
| WheelBuilding.ValidatePass | pype/base/deploy/wheel/builder.py:63-77 | Validation passes exactly when no two extensions share a name and no function name occurs twice across all extensions, including within one extension. |
| WheelBuilding.Libraries | pype/base/deploy/wheel/builder.py:84-90 | <ul><li>Given libraries are used as they are, and must be non-empty.</li><li>Otherwise:<ul><li>the pinned requirement lines are used, stripped of newlines and in file order;</li><li>it succeeds exactly when some line is pinned.</li></ul></li><li>The error is "Using pype, it is assumend there is at least 1 dependency".</li></ul> |
| WheelBuilding.WheelBuilder.constructor | pype/base/deploy/wheel/builder.py:46-61 | The fields after `__post_init__`: the default output directory, and the extensions with BaseExtension. |
| WheelBuilding.WheelBuilder.New | pype/base/deploy/wheel/builder.py:53-61 | Construction raises exactly when the extensions, with BaseExtension added, do not validate. |
| WheelBuilding.WheelBuilder.Build | pype/base/deploy/wheel/builder.py:84-116 | Fails exactly when `Libraries` fails, before any extension runs. Otherwise each extension's `extend` gets the list in extension order (`Extended`), and the result is the template filled with the final list joined, the model name and the version. |
| WheelBuilding.ExtendedUnchanged | pype/base/deploy/wheel/builder.py:104-108 | Extensions that leave the library list alone leave `install_requires` as the checked libraries. |
| WheelBuilding.ExtendedAppends | pype/base/deploy/wheel/builder.py:104-108 | Extensions that append their own `libraries` add them after the checked ones, in extension order. Every library an extension declares, such as "pype.base" of BaseExtension, then appears in `install_requires`. |
| Wheel.RequirementsAsWritten | pype/base/deploy/wheel.py:41-48 | As written: fails exactly when the given libraries are empty or, without libraries, when the requirements file has no lines at all. Otherwise it is the given libraries, or the pinned lines stripped of newlines, joined by `'", "'`. The list may be empty. |
| Wheel.MakeWheelSetupAsWritten | pype/base/deploy/wheel.py:41-56 | As written: fails in the same cases. Otherwise the setup file is the builder's setup file for that unchecked list. |
| Wheel.Requirements | pype/base/deploy/wheel.py:41-48 | As evidently intended: the requirements string fails exactly when the builder's library list does. Otherwise it is that list joined by `'", "'`. |
| Wheel.UnpinnedFilePasses | pype/base/deploy/wheel.py:44-45 | As written, a file whose only line is unpinned passes, yields "" and writes a setup file with an empty `install_requires`. The intended version and `WheelBuilder` report the missing dependency. |
| Wheel.AsWrittenAgrees | pype/base/deploy/wheel.py:41-56 | As written and corrected agree, in the requirements string and in the setup file, whenever a library is given or some line is pinned. |
| Wheel.MakeWheelSetup | pype/base/deploy/wheel.py:41-56 | As evidently intended: the setup file is the builder's `SetupFile` for the builder's library list, which is what `WheelBuilder.build` writes when no extension changes that list. It fails in the same cases as the builder. |
| Serving.PypeApp.constructor | pype/fastapi/deploy/app.py:15-24 | A string folder becomes a Path. The name and the sinks are kept. |
| Serving.PypeApp.HomePage | pype/fastapi/deploy/app.py:40-43 | Logs "Homepage request" and returns "Welcome to the Pype FastAPI app for <name>". |
| Serving.Pick | pype/fastapi/deploy/app.py:64-68 | An output of the sink's name wins over an input. An output that is None is not replaced by the input. No dataset of that name gives None. |
| Serving.PypeApp.HandleTracking | pype/fastapi/deploy/app.py:58-77 | Without sinks nothing is logged or scheduled. Otherwise "Logging records request" is logged, then each sink's records, and each sink's task is appended, in sink order. |
| Serving.TrackSinks | pype/fastapi/deploy/app.py:61-77 | The loop appends `TrackingLogs` to the logger and `TrackingTasks` to the background tasks. |
| Serving.TrackSink | pype/fastapi/deploy/app.py:62-77 | One sink: <ul><li>no data logs the warning and schedules nothing;</li><li>data logs "Storing data…" then adds its background task;</li><li>if `add_task` raises, the error is logged and nothing is added.</li></ul> |
| Serving.TasksAtMostSinks | pype/fastapi/deploy/app.py:72-74 | At most one task per sink. |
| Serving.TaskScheduled | pype/fastapi/deploy/app.py:61-77 | A task (sink, data) is scheduled exactly when some sink with that sink value picked that data and `add_task` did not raise. A failing sink does not stop later ones. |
| Serving.TrackingWarnings | pype/fastapi/deploy/app.py:70-71 | The warnings name exactly the sinks for which no data, or None, was found. |
| Serving.TrackingErrors | pype/fastapi/deploy/app.py:76-77 | An error record is logged exactly for each sink whose `add_task` raised, with the sink's name and the message. |
| Serving.PypeApp.VerifyTrackingServers | pype/fastapi/deploy/app.py:79-91 | Without sinks nothing is logged. Otherwise the logger gains `FieldWarnings` for the sinks in order. It never fails. |
| Serving.FieldWarningsExact | pype/fastapi/deploy/app.py:88-91 | A warning is issued exactly for the sinks named after neither an input nor an output field, and at most one per sink. |

## Left out

- File system and process work is left out: reading the requirements file and the setup template, temporary directories, `copytree`, and the `setup.py bdist_wheel` run. The file contents are parameters (`requirementLines`, `template`).
- What `WheelExtension.extend` does is not known here, because extensions.py is not part of this model. `Build` takes its effect on the library list as a parameter. Its copying of files into the package and the `print` inside `build` are left out. An extension is its name, its files with their function names, and its libraries. Extensions compare structurally.
- WheelBuilding.WheelBuilder.Build: when `libraries` is given, `build` hands that same list to `extend`, so an extension that appends to it also changes the builder's own `libraries`. The model passes values, so that aliasing is not captured.
- `__post_init__` appends BaseExtension to the caller's own list. The model builds a new sequence, so that aliasing is not captured.
- `Path("").parent.absolute()` and `Path(__file__).parent` are parameters (`cwd`, `moduleDir`). Path normalisation is not modelled.
- The FastAPI wiring is left out because it is web plumbing:
  - `create_app`;
  - the `/predict` endpoint, prediction and the pydantic conversions;
  - `_load_model`;
  - running `write_in_background`.
- The pydantic input and output models appear only as their sets of field names.
- Serving.TrackSink: only `add_task` is taken to raise inside the per-sink `try`. The dataset lookups are total on the modelled `DataSet`.
- The `Logger(__name__).info` progress messages of `Experiment.run` are left out. The trace records only the collaborator calls.
- The text of the constructor's "parameters missing" warning is left out. The model records that it was issued.
- Collaborator calls are modelled as total functions, so an exception from within a collaborator is not modelled. These are `DataSource.read`, `Pipeline.fit`/`transform`, `Model.fit` and `Evaluator.evaluate`. The Pipe, Pipeline, Model, Evaluator, ExperimentLogger and Serialiser classes are not part of this model.
- The `serialiser` argument that `run` passes to `log_model` and `log_artifact` is not recorded in the `LogModel` and `LogArtifact` events. It is the same constructor argument in every call.
- `from_command_line`, `from_dictionary`, `get_args_for_prefix` and `parse_args` are left out: they are not among the modelled operations, or their source is not available.
- argparse's error on a repeated option name is left out: the parser is the sequence of `add_argument` calls.
- `inspect.signature` and `typing.get_origin`/`get_args` are replaced by the `Param` and `Annotation` datatypes.
  - An annotation is a scalar, a generic alias over list, tuple or `collections.abc.Iterable` carrying its first type argument, or unsupported.
  - The `IndexError` of a bare `typing.List` annotation (no type argument) is therefore not modelled.
- SparkTypeChecking.FitSignature: its success-or-failure characterisation and the per-column content are stated only for frames with distinct column names. On repeated names it gives only the key facts, since `dict(data.dtypes)` keeps the last dtype.
- `select` on a frame with repeated column names takes the first matching column. Spark would report an ambiguous column.
- `assert isinstance(data, SparkDataFrame)` is left out: the frame type makes it hold.
- `SparkData.convert`/`to_model`, `get_pydantic_type` and `SparkSqlSource` are left out: they are foreign library calls.
- The Inferencer's call order is left out, since its source is not part of this model.

## Findings

| source | as written | input that shows it | evidently intended | confidence | as-written member | corrected member |
|---|---|---|---|---|---|---|
| pype/base/deploy/wheel.py:44-45 | Checks that the raw requirement lines are non-empty, then filters the pinned ones and joins them. | A requirements file holding only `numpy\n`: it passes the check and writes an empty `install_requires`. | At least one pinned dependency, as the assertion message says and as `WheelBuilder.build` checks after filtering (builder.py:87-90). | medium, not executed | Wheel.MakeWheelSetupAsWritten, over Wheel.RequirementsAsWritten (shown by Wheel.UnpinnedFilePasses) | Wheel.MakeWheelSetup, over Wheel.Requirements (Wheel.AsWrittenAgrees says where the two agree) |
| pype/base/experiment/experiment.py:261 | `typing.get_origin(class_) in [list, tuple, Iterable]`, with `Iterable` imported from `typing` (line 7). | A parameter annotated `Iterable[int]`: its origin is `collections.abc.Iterable`, which does not compare equal to `typing.Iterable`, so it only warns. | An option of type `int` taking one or more values, as for `list[int]`. | medium, not executed | ExperimentArgs.GetCmdArgs, which follows `AsWritten` (shown by ExperimentArgsProperties.IterableModelParamWarns and IterableParamWarns) | ExperimentArgs.CmdDerived under `Intended` (proved by ExperimentArgsProperties.FunctionArguments; CmdAgrees says where the two agree) |
