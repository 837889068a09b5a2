/** `Experiment`: constructor checks and defaults, and the fixed order of collaborator calls made
    by `run`. The data sources, pipeline, model, evaluator and experiment logger are abstract: their
    operations are the functions of a `Collaborators` value, and every call `run` makes on them is
    recorded as an event in the experiment's trace. */
module Experiments {
  import opened Results
  import opened Paths
  import opened Dicts

  const ModelFile := "model"
  const ModelClassFile := "model_class"
  const PipelineFile := "pipeline"
  const MissingTrainMessage := "Must provide a 'train' entry in the data_sources dictionary."

  /** The abstract operations `run` calls: a source's `read`, `Pipeline.fit` (which updates the
      pipeline), `Pipeline.transform`, `Model.fit` (which updates the model) and `Evaluator.evaluate`. */
  datatype Collaborators<!S, !P, !M, !D, X> = Collaborators(
    read: S -> D,
    fitPipeline: (P, D) -> P,
    transform: (P, D) -> D,
    fitModel: (M, D) -> M,
    evaluate: (M, D) -> X)

  /** One call made by `run`. The pipeline and model carried by a call are their states at the
      time of the call. */
  datatype Event<P, M, D, X, V> =
    | EnterLogger
    | ReadSource(name: string, data: D)
    | FitPipeline(pipeline: P, data: D)
    | TransformData(name: string, pipeline: P, data: D)
    | FitModel(model: M, data: D)
    | EvaluateModel(name: string, model: M, data: D)
    | LogMetrics(name: string, metrics: X)
    | LogModel(model: M, modelPath: Path, classPath: Path)
    | LogArtifact(path: Path, pipeline: P)
    | LogParameters(parameters: map<string, V>)
    | LogFile(file: string)
    | ExitLogger

  /** The validated constructor arguments. `warned` records the warning issued when no
      parameters are given. */
  datatype Config<S, V> = Config(
    dataSources: Dict<S>,
    outputFolder: Path,
    additionalFiles: seq<string>,
    parameters: map<string, V>,
    warned: bool)

  /** `Experiment.__init__`'s checks and defaults. */
  function Configure<S, V>(dataSources: Dict<S>, outputFolder: PathArg, additionalFiles: Option<seq<string>>,
                           parameters: Option<map<string, V>>): (r: Result<Config<S, V>, string>)
    ensures r.Err? <==> "train" !in Keys(dataSources)
    ensures r.Err? ==> r.error == MissingTrainMessage
    ensures r.Ok? ==> r.value.dataSources == dataSources && r.value.outputFolder == ToPath(outputFolder)
    ensures r.Ok? ==> r.value.additionalFiles == (if additionalFiles.Some? then additionalFiles.value else [])
    ensures r.Ok? ==> r.value.parameters == (if parameters.Some? then parameters.value else map[])
    ensures r.Ok? ==> (r.value.warned <==> parameters.None?)
  {
    if "train" !in Keys(dataSources) then Err(MissingTrainMessage)
    else
      Ok(Config(dataSources, ToPath(outputFolder),
                match additionalFiles case Some(fs) => fs case None => [],
                match parameters case Some(ps) => ps case None => map[],
                parameters.None?))
  }

  /** `d[key]` on a dict known to hold `key`. */
  function Lookup<A>(d: seq<(string, A)>, key: string): (a: A)
    requires key in Keys(d)
    ensures (key, a) in d
  {
    Get(d, key).value
  }

  /** `{name: source.read() for name, source in data_sources.items()}`. */
  function ReadAll<S, D>(sources: seq<(string, S)>, read: S -> D): (ds: seq<(string, D)>)
    ensures |ds| == |sources| && Keys(ds) == Keys(sources)
    ensures forall i {:trigger ds[i]} :: 0 <= i < |sources| ==> ds[i] == (sources[i].0, read(sources[i].1))
  {
    if |sources| == 0 then [] else [(sources[0].0, read(sources[0].1))] + ReadAll(sources[1..], read)
  }

  /** `{name: pipeline.transform(data) for name, data in datasets.items()}`. */
  function TransformAll<P, D>(p: P, ds: seq<(string, D)>, transform: (P, D) -> D): (tr: seq<(string, D)>)
    ensures |tr| == |ds| && Keys(tr) == Keys(ds)
    ensures forall i {:trigger tr[i]} :: 0 <= i < |ds| ==> tr[i] == (ds[i].0, transform(p, ds[i].1))
  {
    if |ds| == 0 then [] else [(ds[0].0, transform(p, ds[0].1))] + TransformAll(p, ds[1..], transform)
  }

  /** `{name: evaluator.evaluate(model, data) for name, data in datasets.items()}`. */
  function EvaluateAll<M, D, X>(m: M, ds: seq<(string, D)>, evaluate: (M, D) -> X): (ms: seq<(string, X)>)
    ensures |ms| == |ds| && Keys(ms) == Keys(ds)
    ensures forall i {:trigger ms[i]} :: 0 <= i < |ds| ==> ms[i] == (ds[i].0, evaluate(m, ds[i].1))
  {
    if |ds| == 0 then [] else [(ds[0].0, evaluate(m, ds[0].1))] + EvaluateAll(m, ds[1..], evaluate)
  }

  /** One read call per data source, in order. */
  function ReadEvents<P, M, D, X, V>(ds: seq<(string, D)>): (es: seq<Event<P, M, D, X, V>>)
    ensures |es| == |ds| && forall k {:trigger es[k]} :: 0 <= k < |ds| ==> es[k] == ReadSource(ds[k].0, ds[k].1)
  {
    seq(|ds|, k requires 0 <= k < |ds| => ReadSource(ds[k].0, ds[k].1))
  }

  /** One transform call per dataset, in order. */
  function TransformEvents<P, M, D, X, V>(p: P, ds: seq<(string, D)>): (es: seq<Event<P, M, D, X, V>>)
    ensures |es| == |ds| && forall k {:trigger es[k]} :: 0 <= k < |ds| ==> es[k] == TransformData(ds[k].0, p, ds[k].1)
  {
    seq(|ds|, k requires 0 <= k < |ds| => TransformData(ds[k].0, p, ds[k].1))
  }

  /** One evaluation call per dataset, in order. */
  function EvaluateEvents<P, M, D, X, V>(m: M, ds: seq<(string, D)>): (es: seq<Event<P, M, D, X, V>>)
    ensures |es| == |ds| && forall k {:trigger es[k]} :: 0 <= k < |ds| ==> es[k] == EvaluateModel(ds[k].0, m, ds[k].1)
  {
    seq(|ds|, k requires 0 <= k < |ds| => EvaluateModel(ds[k].0, m, ds[k].1))
  }

  /** One `log_metrics` call per metric set, in order. */
  function MetricEvents<P, M, D, X, V>(ms: seq<(string, X)>): (es: seq<Event<P, M, D, X, V>>)
    ensures |es| == |ms| && forall k {:trigger es[k]} :: 0 <= k < |ms| ==> es[k] == LogMetrics(ms[k].0, ms[k].1)
  {
    seq(|ms|, k requires 0 <= k < |ms| => LogMetrics(ms[k].0, ms[k].1))
  }

  /** One `log_file` call per extra file, in order. */
  function FileEvents<P, M, D, X, V>(files: seq<string>): (es: seq<Event<P, M, D, X, V>>)
    ensures |es| == |files| && forall k {:trigger es[k]} :: 0 <= k < |files| ==> es[k] == LogFile(files[k])
  {
    seq(|files|, k requires 0 <= k < |files| => LogFile(files[k]))
  }

  /** The pipeline after `run`: fitted on the read "train" dataset. */
  function FittedPipeline<S, P, M, D, X>(sources: seq<(string, S)>, p: P, c: Collaborators<S, P, M, D, X>): P
    requires "train" in Keys(sources)
  {
    c.fitPipeline(p, Lookup(ReadAll(sources, c.read), "train"))
  }

  /** All datasets, transformed by the fitted pipeline. */
  function Transformed<S, P, M, D, X>(sources: seq<(string, S)>, p: P, c: Collaborators<S, P, M, D, X>): seq<(string, D)>
    requires "train" in Keys(sources)
  {
    TransformAll(FittedPipeline(sources, p, c), ReadAll(sources, c.read), c.transform)
  }

  /** The model after `run`: fitted on the transformed "train" dataset. */
  function FittedModel<S, P, M, D, X>(sources: seq<(string, S)>, p: P, m: M, c: Collaborators<S, P, M, D, X>): M
    requires "train" in Keys(sources)
  {
    c.fitModel(m, Lookup(Transformed(sources, p, c), "train"))
  }

  /** The metrics `run` returns. */
  function Metrics<S, P, M, D, X>(sources: seq<(string, S)>, p: P, m: M, c: Collaborators<S, P, M, D, X>): seq<(string, X)>
    requires "train" in Keys(sources)
  {
    EvaluateAll(FittedModel(sources, p, m, c), ReadAll(sources, c.read), c.evaluate)
  }

  /** The loading, fitting and transforming calls, given the read datasets, the fitted pipeline
      and the "train" dataset before and after transformation. */
  function FitEvents<P, M, D, X, V>(p: P, m: M, ds: seq<(string, D)>, fp: P, train: D, transformedTrain: D)
    : seq<Event<P, M, D, X, V>>
  {
    [EnterLogger] + ReadEvents(ds) + [FitPipeline(p, train)] + TransformEvents(fp, ds) + [FitModel(m, transformedTrain)]
  }

  /** The evaluation and logging calls, given the fitted model and pipeline, the read datasets and
      their metrics. */
  function LogEvents<P, M, D, X, V>(fm: M, fp: P, ds: seq<(string, D)>, ms: seq<(string, X)>, outputFolder: Path,
                                    files: seq<string>, parameters: map<string, V>): seq<Event<P, M, D, X, V>>
  {
    EvaluateEvents(fm, ds) + MetricEvents(ms)
    + [LogModel(fm, Join(outputFolder, ModelFile), Join(outputFolder, ModelClassFile)),
       LogArtifact(Join(outputFolder, PipelineFile), fp),
       LogParameters(parameters)]
    + FileEvents(files) + [ExitLogger]
  }

  /** The calls of both phases, given the values they carry. */
  function Trace<P, M, D, X, V>(p: P, m: M, ds: seq<(string, D)>, fp: P, train: D, tt: D, fm: M,
                                ms: seq<(string, X)>, outputFolder: Path, files: seq<string>,
                                parameters: map<string, V>): seq<Event<P, M, D, X, V>>
  {
    FitEvents(p, m, ds, fp, train, tt) + LogEvents(fm, fp, ds, ms, outputFolder, files, parameters)
  }

  /** The calls `run` makes, in order. */
  function RunEvents<S, P, M, D, X, V>(sources: seq<(string, S)>, outputFolder: Path, files: seq<string>,
                                       parameters: map<string, V>, p: P, m: M, c: Collaborators<S, P, M, D, X>)
    : seq<Event<P, M, D, X, V>>
    requires "train" in Keys(sources)
  {
    var ds := ReadAll(sources, c.read);
    Trace(p, m, ds, FittedPipeline(sources, p, c), Lookup(ds, "train"), Lookup(Transformed(sources, p, c), "train"),
          FittedModel(sources, p, m, c), Metrics(sources, p, m, c), outputFolder, files, parameters)
  }

  class Experiment<S, P, M, D, X, V> {
    const dataSources: Dict<S>
    const outputFolder: Path
    const additionalFiles: seq<string>
    const parameters: map<string, V>
    const collaborators: Collaborators<S, P, M, D, X>
    var pipeline: P
    var model: M
    var trace: seq<Event<P, M, D, X, V>>

    ghost predicate Valid() {
      "train" in Keys(dataSources)
    }

    constructor (config: Config<S, V>, model: M, pipeline: P, collaborators: Collaborators<S, P, M, D, X>)
      requires "train" in Keys(config.dataSources)
      ensures Valid()
      ensures dataSources == config.dataSources && outputFolder == config.outputFolder
      ensures additionalFiles == config.additionalFiles && parameters == config.parameters
      ensures this.collaborators == collaborators && this.pipeline == pipeline && this.model == model
      ensures trace == []
    {
      dataSources := config.dataSources;
      outputFolder := config.outputFolder;
      additionalFiles := config.additionalFiles;
      parameters := config.parameters;
      this.collaborators := collaborators;
      this.pipeline := pipeline;
      this.model := model;
      trace := [];
    }

    /** `Experiment(...)`: raises without a "train" data source, applies the defaults otherwise;
        `warned` tells whether the missing-parameters warning was issued. */
    static method New(dataSources: Dict<S>, model: M, pipeline: P, collaborators: Collaborators<S, P, M, D, X>,
                      outputFolder: PathArg, additionalFiles: Option<seq<string>>, parameters: Option<map<string, V>>)
      returns (r: Result<Experiment<S, P, M, D, X, V>, string>, warned: bool)
      ensures Configure(dataSources, outputFolder, additionalFiles, parameters).Err? ==>
                r == Err(MissingTrainMessage) && !warned
      ensures r.Ok? ==> (warned <==> parameters.None?)
      ensures Configure(dataSources, outputFolder, additionalFiles, parameters).Ok? ==>
                r.Ok? && fresh(r.value) && r.value.Valid()
                && r.value.dataSources == dataSources && r.value.outputFolder == ToPath(outputFolder)
                && r.value.additionalFiles == Configure(dataSources, outputFolder, additionalFiles, parameters).value.additionalFiles
                && r.value.parameters == Configure(dataSources, outputFolder, additionalFiles, parameters).value.parameters
                && r.value.pipeline == pipeline && r.value.model == model && r.value.trace == []
    {
      var config := Configure(dataSources, outputFolder, additionalFiles, parameters);
      if config.Err? {
        return Err(config.error), false;
      }
      var e := new Experiment(config.value, model, pipeline, collaborators);
      return Ok(e), config.value.warned;
    }

    /** The first half of `run`: loading every dataset, fitting the pipeline on "train",
        transforming every dataset and fitting the model on the transformed "train" set. */
    static method FitCalls(sources: seq<(string, S)>, p: P, m: M, c: Collaborators<S, P, M, D, X>)
      returns (events: seq<Event<P, M, D, X, V>>, datasets: seq<(string, D)>, fp: P, fm: M)
      requires "train" in Keys(sources)
      ensures events == FitEvents(p, m, ReadAll(sources, c.read), FittedPipeline(sources, p, c),
                                  Lookup(ReadAll(sources, c.read), "train"), Lookup(Transformed(sources, p, c), "train"))
      ensures datasets == ReadAll(sources, c.read)
      ensures fp == FittedPipeline(sources, p, c) && fm == FittedModel(sources, p, m, c)
    {
      datasets := ReadAll(sources, c.read);
      var train := Lookup(datasets, "train");
      events := [EnterLogger] + ReadEvents(datasets) + [FitPipeline(p, train)];
      fp := c.fitPipeline(p, train);
      var transformed := TransformAll(fp, datasets, c.transform);
      var transformedTrain := Lookup(transformed, "train");
      events := events + TransformEvents(fp, datasets) + [FitModel(m, transformedTrain)];
      fm := c.fitModel(m, transformedTrain);
    }

    /** The second half of `run`: evaluation on every dataset, then the logger calls, the metrics
        once per dataset and the extra files one by one. */
    static method LogCalls(fm: M, fp: P, ds: seq<(string, D)>, ms: seq<(string, X)>, outputFolder: Path,
                           files: seq<string>, parameters: map<string, V>) returns (events: seq<Event<P, M, D, X, V>>)
      ensures events == LogEvents(fm, fp, ds, ms, outputFolder, files, parameters)
    {
      events := EvaluateEvents(fm, ds);
      ghost var before := events;
      var i := 0;
      while i < |ms|
        invariant 0 <= i <= |ms|
        invariant events == before + MetricEvents(ms[..i])
      {
        events := events + [LogMetrics(ms[i].0, ms[i].1)];
        i := i + 1;
        assert MetricEvents<P, M, D, X, V>(ms[..i])
               == MetricEvents<P, M, D, X, V>(ms[..i - 1]) + [LogMetrics(ms[i - 1].0, ms[i - 1].1)];
      }
      assert ms[..i] == ms;

      var of := outputFolder;
      events := events + [LogModel(fm, Join(of, ModelFile), Join(of, ModelClassFile)),
                          LogArtifact(Join(of, PipelineFile), fp),
                          LogParameters(parameters)];

      before := events;
      var j := 0;
      while j < |files|
        invariant 0 <= j <= |files|
        invariant events == before + FileEvents(files[..j])
      {
        events := events + [LogFile(files[j])];
        j := j + 1;
        assert FileEvents<P, M, D, X, V>(files[..j])
               == FileEvents<P, M, D, X, V>(files[..j - 1]) + [LogFile(files[j - 1])];
      }
      assert files[..j] == files;
      events := events + [ExitLogger];
    }

    /** `run`: records its calls, leaves the fitted pipeline and model behind and returns the
        metrics per dataset. */
    method Run() returns (metrics: seq<(string, X)>)
      requires Valid()
      modifies this
      ensures trace == old(trace) + RunEvents(dataSources, outputFolder, additionalFiles, parameters,
                                              old(pipeline), old(model), collaborators)
      ensures pipeline == FittedPipeline(dataSources, old(pipeline), collaborators)
      ensures model == FittedModel(dataSources, old(pipeline), old(model), collaborators)
      ensures metrics == Metrics(dataSources, old(pipeline), old(model), collaborators)
    {
      var c := collaborators;
      var fitEvents, datasets, fitted, fittedModel := FitCalls(dataSources, pipeline, model, c);
      metrics := EvaluateAll(fittedModel, datasets, c.evaluate);
      var logEvents := LogCalls(fittedModel, fitted, datasets, metrics, outputFolder, additionalFiles, parameters);
      pipeline, model := fitted, fittedModel;
      trace := trace + (fitEvents + logEvents);
    }
  }

  /** Looking up a key in a dict built by mapping over the values of another finds the mapped
      value of that key. */
  lemma {:induction false} LookupMapped<S, D>(sources: Dict<S>, key: string, read: S -> D)
    requires key in Keys(sources)
    ensures Lookup(ReadAll(sources, read), key) == read(Lookup(sources, key))
  {
    var i :| 0 <= i < |sources| && Keys(sources)[i] == key;
    GetAt(sources, i);
    GetAt(ReadAll(sources, read), i);
  }

  lemma {:induction false} LookupTransformed<P, D>(p: P, ds: Dict<D>, key: string, transform: (P, D) -> D)
    requires key in Keys(ds)
    ensures Lookup(TransformAll(p, ds, transform), key) == transform(p, Lookup(ds, key))
  {
    var i :| 0 <= i < |ds| && Keys(ds)[i] == key;
    GetAt(ds, i);
    GetAt(TransformAll(p, ds, transform), i);
  }

  /* Where each call sits within the two phases. */

  lemma MiddleAt<T>(a: seq<T>, b: seq<T>, c: seq<T>, k: int)
    requires 0 <= k < |b|
    ensures |a + b + c| == |a| + |b| + |c| && (a + b + c)[|a| + k] == b[k]
  {
  }

  lemma {:induction false} FitEventsShape<P, M, D, X, V>(p: P, m: M, ds: seq<(string, D)>, fp: P, train: D, tt: D)
    ensures var t := FitEvents<P, M, D, X, V>(p, m, ds, fp, train, tt);
            && |t| == 2 * |ds| + 3 && t[0] == EnterLogger
            && t[|ds| + 1] == FitPipeline(p, train) && t[2 * |ds| + 2] == FitModel(m, tt)
  {
    var t := FitEvents<P, M, D, X, V>(p, m, ds, fp, train, tt);
    var rs := ReadEvents<P, M, D, X, V>(ds);
    var ts := TransformEvents<P, M, D, X, V>(fp, ds);
    var n := |ds|;
    assert t == [EnterLogger] + rs + [FitPipeline(p, train)] + ts + [FitModel(m, tt)];
  }

  lemma {:induction false} FitEventsTransforms<P, M, D, X, V>(p: P, m: M, ds: seq<(string, D)>, fp: P, train: D, tt: D)
    ensures var t := FitEvents<P, M, D, X, V>(p, m, ds, fp, train, tt);
            forall k :: 0 <= k < |ds| ==> t[|ds| + 2 + k] == TransformData(ds[k].0, fp, ds[k].1)
  {
    var t := FitEvents<P, M, D, X, V>(p, m, ds, fp, train, tt);
    var rs := ReadEvents<P, M, D, X, V>(ds);
    var ts := TransformEvents<P, M, D, X, V>(fp, ds);
    var n := |ds|;
    assert t == [EnterLogger] + rs + [FitPipeline(p, train)] + ts + [FitModel(m, tt)];
    forall k | 0 <= k < n ensures t[n + 2 + k] == TransformData(ds[k].0, fp, ds[k].1) {
      assert t[n + 2 + k] == ts[k];
    }
  }

  lemma {:induction false} FitEventsKinds<P, M, D, X, V>(p: P, m: M, ds: seq<(string, D)>, fp: P, train: D, tt: D)
    ensures var t := FitEvents<P, M, D, X, V>(p, m, ds, fp, train, tt);
            forall i :: 0 <= i < |t| ==>
              && (t[i].FitPipeline? ==> i == |ds| + 1)
              && (t[i].TransformData? ==> |ds| + 1 < i < 2 * |ds| + 2)
              && (t[i].FitModel? ==> i == 2 * |ds| + 2)
              && !t[i].EvaluateModel?
  {
    var t := FitEvents<P, M, D, X, V>(p, m, ds, fp, train, tt);
    var rs := ReadEvents<P, M, D, X, V>(ds);
    var ts := TransformEvents<P, M, D, X, V>(fp, ds);
    var n := |ds|;
    assert t == [EnterLogger] + rs + [FitPipeline(p, train)] + ts + [FitModel(m, tt)];
    forall i | 0 <= i < |t|
      ensures && (t[i].FitPipeline? ==> i == n + 1)
              && (t[i].TransformData? ==> n + 1 < i < 2 * n + 2)
              && (t[i].FitModel? ==> i == 2 * n + 2)
              && !t[i].EvaluateModel?
    {
      if 1 <= i <= n {
        assert t[i] == rs[i - 1];
      } else if n + 2 <= i < 2 * n + 2 {
        assert t[i] == ts[i - n - 2];
      }
    }
  }

  lemma {:induction false} LogEventsEvaluations<P, M, D, X, V>(fm: M, fp: P, ds: seq<(string, D)>, ms: seq<(string, X)>, outputFolder: Path,
      files: seq<string>, parameters: map<string, V>)
    ensures var t := LogEvents(fm, fp, ds, ms, outputFolder, files, parameters);
            && |t| == |ds| + |ms| + 4 + |files|
            && (forall k :: 0 <= k < |ds| ==> t[k] == EvaluateModel(ds[k].0, fm, ds[k].1))
  {
    var t := LogEvents(fm, fp, ds, ms, outputFolder, files, parameters);
    var es := EvaluateEvents<P, M, D, X, V>(fm, ds);
    var mes := MetricEvents<P, M, D, X, V>(ms);
    var arts := [LogModel(fm, Join(outputFolder, ModelFile), Join(outputFolder, ModelClassFile)),
                 LogArtifact(Join(outputFolder, PipelineFile), fp), LogParameters(parameters)];
    var fs := FileEvents<P, M, D, X, V>(files);
    assert t == es + mes + arts + fs + [ExitLogger];
    forall k | 0 <= k < |ds| ensures t[k] == EvaluateModel(ds[k].0, fm, ds[k].1) {
      assert t[k] == es[k];
    }
  }

  lemma {:induction false} LogEventsKinds<P, M, D, X, V>(fm: M, fp: P, ds: seq<(string, D)>, ms: seq<(string, X)>, outputFolder: Path,
      files: seq<string>, parameters: map<string, V>)
    ensures var t := LogEvents(fm, fp, ds, ms, outputFolder, files, parameters);
            forall i :: 0 <= i < |t| ==>
              && (t[i].EvaluateModel? ==> i < |ds|)
              && !t[i].FitPipeline? && !t[i].TransformData? && !t[i].FitModel?
  {
    var t := LogEvents(fm, fp, ds, ms, outputFolder, files, parameters);
    var es := EvaluateEvents<P, M, D, X, V>(fm, ds);
    var mes := MetricEvents<P, M, D, X, V>(ms);
    var arts := [LogModel(fm, Join(outputFolder, ModelFile), Join(outputFolder, ModelClassFile)),
                 LogArtifact(Join(outputFolder, PipelineFile), fp), LogParameters(parameters)];
    var fs := FileEvents<P, M, D, X, V>(files);
    assert t == es + mes + arts + fs + [ExitLogger];
    var n := |ds|;
    var l := |ms|;
    forall i | 0 <= i < |t|
      ensures && (t[i].EvaluateModel? ==> i < n)
              && !t[i].FitPipeline? && !t[i].TransformData? && !t[i].FitModel?
    {
      if i < n {
        assert t[i] == es[i];
      } else if i < n + l {
        assert t[i] == mes[i - n];
      } else if i < n + l + 3 {
        assert t[i] == arts[i - n - l];
      } else if i < n + l + 3 + |files| {
        assert t[i] == fs[i - n - l - 3];
      }
    }
  }

  lemma {:induction false} LogEventsMetrics<P, M, D, X, V>(fm: M, fp: P, ds: seq<(string, D)>, ms: seq<(string, X)>, outputFolder: Path,
      files: seq<string>, parameters: map<string, V>)
    ensures var t := LogEvents(fm, fp, ds, ms, outputFolder, files, parameters);
            && |t| == |ds| + |ms| + 4 + |files|
            && forall k :: 0 <= k < |ms| ==> t[|ds| + k] == LogMetrics(ms[k].0, ms[k].1)
  {
    var t := LogEvents(fm, fp, ds, ms, outputFolder, files, parameters);
    var es := EvaluateEvents<P, M, D, X, V>(fm, ds);
    var mes := MetricEvents<P, M, D, X, V>(ms);
    var arts := [LogModel(fm, Join(outputFolder, ModelFile), Join(outputFolder, ModelClassFile)),
                 LogArtifact(Join(outputFolder, PipelineFile), fp), LogParameters(parameters)];
    var fs := FileEvents<P, M, D, X, V>(files);
    assert t == es + mes + arts + fs + [ExitLogger];
    forall k | 0 <= k < |ms| ensures t[|ds| + k] == LogMetrics(ms[k].0, ms[k].1) {
      assert t[|ds| + k] == mes[k];
    }
  }

  lemma {:induction false} LogEventsArtifacts<P, M, D, X, V>(fm: M, fp: P, ds: seq<(string, D)>, ms: seq<(string, X)>, outputFolder: Path,
      files: seq<string>, parameters: map<string, V>)
    ensures var t := LogEvents(fm, fp, ds, ms, outputFolder, files, parameters);
            var n := |ds| + |ms|;
            && |t| == n + 4 + |files|
            && t[n] == LogModel(fm, Join(outputFolder, ModelFile), Join(outputFolder, ModelClassFile))
            && t[n + 1] == LogArtifact(Join(outputFolder, PipelineFile), fp)
            && t[n + 2] == LogParameters(parameters)
  {
    var t := LogEvents(fm, fp, ds, ms, outputFolder, files, parameters);
    var es := EvaluateEvents<P, M, D, X, V>(fm, ds);
    var mes := MetricEvents<P, M, D, X, V>(ms);
    var arts := [LogModel(fm, Join(outputFolder, ModelFile), Join(outputFolder, ModelClassFile)),
                 LogArtifact(Join(outputFolder, PipelineFile), fp), LogParameters(parameters)];
    var fs := FileEvents<P, M, D, X, V>(files);
    assert t == es + mes + arts + fs + [ExitLogger];
    var n := |ds| + |ms|;
    assert t[n] == arts[0] && t[n + 1] == arts[1] && t[n + 2] == arts[2];
  }

  lemma {:induction false} LogEventsFiles<P, M, D, X, V>(fm: M, fp: P, ds: seq<(string, D)>, ms: seq<(string, X)>, outputFolder: Path,
      files: seq<string>, parameters: map<string, V>)
    ensures var t := LogEvents(fm, fp, ds, ms, outputFolder, files, parameters);
            var n := |ds| + |ms|;
            && |t| == n + 4 + |files| && t[|t| - 1] == ExitLogger
            && forall k :: 0 <= k < |files| ==> t[n + 3 + k] == LogFile(files[k])
  {
    var t := LogEvents(fm, fp, ds, ms, outputFolder, files, parameters);
    var es := EvaluateEvents<P, M, D, X, V>(fm, ds);
    var mes := MetricEvents<P, M, D, X, V>(ms);
    var arts := [LogModel(fm, Join(outputFolder, ModelFile), Join(outputFolder, ModelClassFile)),
                 LogArtifact(Join(outputFolder, PipelineFile), fp), LogParameters(parameters)];
    var fs := FileEvents<P, M, D, X, V>(files);
    forall k | 0 <= k < |files| ensures t[|ds| + |ms| + 3 + k] == LogFile(files[k]) {
      MiddleAt(es + mes + arts, fs, [ExitLogger], k);
    }
    MiddleAt(es + mes + arts + fs, [ExitLogger], [], 0);
  }

  /** Where each kind of call sits in the trace: the unique pipeline fit, the transforms between
      it and the unique model fit, and the evaluations right after the model fit. */
  lemma {:induction false} TraceKinds<P, M, D, X, V>(p: P, m: M, ds: seq<(string, D)>, fp: P, train: D, tt: D, fm: M,
      ms: seq<(string, X)>, outputFolder: Path, files: seq<string>, parameters: map<string, V>)
    requires |ms| == |ds|
    ensures var t := Trace(p, m, ds, fp, train, tt, fm, ms, outputFolder, files, parameters);
            var n := |ds|;
            forall i :: 0 <= i < |t| ==>
              && (t[i].FitPipeline? ==> i == n + 1)
              && (t[i].TransformData? ==> n + 1 < i < 2 * n + 2)
              && (t[i].FitModel? ==> i == 2 * n + 2)
              && (t[i].EvaluateModel? ==> 2 * n + 2 < i < 3 * n + 3)
  {
    var fit := FitEvents<P, M, D, X, V>(p, m, ds, fp, train, tt);
    var log := LogEvents(fm, fp, ds, ms, outputFolder, files, parameters);
    var t := fit + log;
    var n := |ds|;
    FitEventsShape<P, M, D, X, V>(p, m, ds, fp, train, tt);
    FitEventsKinds<P, M, D, X, V>(p, m, ds, fp, train, tt);
    LogEventsKinds(fm, fp, ds, ms, outputFolder, files, parameters);
    forall i | 0 <= i < |t|
      ensures && (t[i].FitPipeline? ==> i == n + 1)
              && (t[i].TransformData? ==> n + 1 < i < 2 * n + 2)
              && (t[i].FitModel? ==> i == 2 * n + 2)
              && (t[i].EvaluateModel? ==> 2 * n + 2 < i < 3 * n + 3)
    {
      if i < |fit| {
        assert t[i] == fit[i];
      } else {
        assert t[i] == log[i - |fit|];
      }
    }
  }

  /** The logger is entered first; the pipeline is fitted on the "train" dataset right after the
      reads, and the model on the transformed "train" dataset right after the transforms. */
  lemma {:induction false} TraceFits<P, M, D, X, V>(p: P, m: M, ds: seq<(string, D)>, fp: P, train: D, tt: D, fm: M,
      ms: seq<(string, X)>, outputFolder: Path, files: seq<string>, parameters: map<string, V>)
    ensures var t := Trace(p, m, ds, fp, train, tt, fm, ms, outputFolder, files, parameters);
            var n := |ds|;
            && |t| > 2 * n + 2 && t[0] == EnterLogger
            && t[n + 1] == FitPipeline(p, train) && t[2 * n + 2] == FitModel(m, tt)
  {
    var fit := FitEvents<P, M, D, X, V>(p, m, ds, fp, train, tt);
    var log := LogEvents(fm, fp, ds, ms, outputFolder, files, parameters);
    var t := fit + log;
    var n := |ds|;
    FitEventsShape<P, M, D, X, V>(p, m, ds, fp, train, tt);
    assert t[0] == fit[0] && t[n + 1] == fit[n + 1] && t[2 * n + 2] == fit[2 * n + 2];
  }

  /** Between the two fits, every dataset is transformed by the fitted pipeline, in order. */
  lemma {:induction false} TraceTransforms<P, M, D, X, V>(p: P, m: M, ds: seq<(string, D)>, fp: P, train: D, tt: D,
      fm: M, ms: seq<(string, X)>, outputFolder: Path, files: seq<string>, parameters: map<string, V>)
    ensures var t := Trace(p, m, ds, fp, train, tt, fm, ms, outputFolder, files, parameters);
            var n := |ds|;
            forall k :: 0 <= k < n ==> 2 * n + 2 < |t| && t[n + 2 + k] == TransformData(ds[k].0, fp, ds[k].1)
  {
    var fit := FitEvents<P, M, D, X, V>(p, m, ds, fp, train, tt);
    var log := LogEvents(fm, fp, ds, ms, outputFolder, files, parameters);
    var t := fit + log;
    var n := |ds|;
    FitEventsShape<P, M, D, X, V>(p, m, ds, fp, train, tt);
    FitEventsTransforms<P, M, D, X, V>(p, m, ds, fp, train, tt);
    forall k | 0 <= k < n ensures t[n + 2 + k] == TransformData(ds[k].0, fp, ds[k].1) {
      assert t[n + 2 + k] == fit[n + 2 + k];
    }
  }

  /** Right after the model fit, the fitted model is evaluated on every dataset as read (not as
      transformed), in order. */
  lemma {:induction false} TraceEvaluations<P, M, D, X, V>(p: P, m: M, ds: seq<(string, D)>, fp: P, train: D, tt: D,
      fm: M, ms: seq<(string, X)>, outputFolder: Path, files: seq<string>, parameters: map<string, V>)
    ensures var t := Trace(p, m, ds, fp, train, tt, fm, ms, outputFolder, files, parameters);
            var n := |ds|;
            && |t| > 3 * n + 2
            && forall k :: 0 <= k < n ==> t[2 * n + 3 + k] == EvaluateModel(ds[k].0, fm, ds[k].1)
  {
    var fit := FitEvents<P, M, D, X, V>(p, m, ds, fp, train, tt);
    var log := LogEvents(fm, fp, ds, ms, outputFolder, files, parameters);
    var t := fit + log;
    var n := |ds|;
    FitEventsShape<P, M, D, X, V>(p, m, ds, fp, train, tt);
    LogEventsEvaluations(fm, fp, ds, ms, outputFolder, files, parameters);
    forall k | 0 <= k < n ensures t[2 * n + 3 + k] == EvaluateModel(ds[k].0, fm, ds[k].1) {
      assert t[2 * n + 3 + k] == log[k];
    }
  }

  /** Then the metrics of each dataset are logged, in order, under the dataset's name. */
  lemma {:induction false} TraceMetrics<P, M, D, X, V>(p: P, m: M, ds: seq<(string, D)>, fp: P, train: D, tt: D,
      fm: M, ms: seq<(string, X)>, outputFolder: Path, files: seq<string>, parameters: map<string, V>)
    requires |ms| == |ds|
    ensures var t := Trace(p, m, ds, fp, train, tt, fm, ms, outputFolder, files, parameters);
            var n := |ds|;
            && |t| > 4 * n + 2
            && forall k :: 0 <= k < n ==> t[3 * n + 3 + k] == LogMetrics(ms[k].0, ms[k].1)
  {
    var fit := FitEvents<P, M, D, X, V>(p, m, ds, fp, train, tt);
    var log := LogEvents(fm, fp, ds, ms, outputFolder, files, parameters);
    var t := fit + log;
    var n := |ds|;
    FitEventsShape<P, M, D, X, V>(p, m, ds, fp, train, tt);
    LogEventsMetrics(fm, fp, ds, ms, outputFolder, files, parameters);
    forall k | 0 <= k < n ensures t[3 * n + 3 + k] == LogMetrics(ms[k].0, ms[k].1) {
      assert t[3 * n + 3 + k] == log[n + k];
    }
  }

  /** Then the fitted model is logged at `<output>/model` and `<output>/model_class`, the fitted
      pipeline at `<output>/pipeline`, and the parameters. */
  lemma {:induction false} TraceArtifacts<P, M, D, X, V>(p: P, m: M, ds: seq<(string, D)>, fp: P, train: D, tt: D,
      fm: M, ms: seq<(string, X)>, outputFolder: Path, files: seq<string>, parameters: map<string, V>)
    requires |ms| == |ds|
    ensures var t := Trace(p, m, ds, fp, train, tt, fm, ms, outputFolder, files, parameters);
            var n := |ds|;
            && |t| > 4 * n + 5
            && t[4 * n + 3] == LogModel(fm, Join(outputFolder, ModelFile), Join(outputFolder, ModelClassFile))
            && t[4 * n + 4] == LogArtifact(Join(outputFolder, PipelineFile), fp)
            && t[4 * n + 5] == LogParameters(parameters)
  {
    var fit := FitEvents<P, M, D, X, V>(p, m, ds, fp, train, tt);
    var log := LogEvents(fm, fp, ds, ms, outputFolder, files, parameters);
    var t := fit + log;
    var n := |ds|;
    FitEventsShape<P, M, D, X, V>(p, m, ds, fp, train, tt);
    LogEventsArtifacts(fm, fp, ds, ms, outputFolder, files, parameters);
    assert t[4 * n + 3] == log[2 * n] && t[4 * n + 4] == log[2 * n + 1] && t[4 * n + 5] == log[2 * n + 2];
  }

  /** The extra files are logged last, one by one in list order, before the logger is left. */
  lemma {:induction false} TraceFiles<P, M, D, X, V>(p: P, m: M, ds: seq<(string, D)>, fp: P, train: D, tt: D,
      fm: M, ms: seq<(string, X)>, outputFolder: Path, files: seq<string>, parameters: map<string, V>)
    requires |ms| == |ds|
    ensures var t := Trace(p, m, ds, fp, train, tt, fm, ms, outputFolder, files, parameters);
            var n := |ds|;
            && |t| == 4 * n + 7 + |files| && t[|t| - 1] == ExitLogger
            && forall k :: 0 <= k < |files| ==> t[4 * n + 6 + k] == LogFile(files[k])
  {
    var fit := FitEvents<P, M, D, X, V>(p, m, ds, fp, train, tt);
    var log := LogEvents(fm, fp, ds, ms, outputFolder, files, parameters);
    var t := fit + log;
    var n := |ds|;
    FitEventsShape<P, M, D, X, V>(p, m, ds, fp, train, tt);
    LogEventsFiles(fm, fp, ds, ms, outputFolder, files, parameters);
    assert t[|t| - 1] == log[|log| - 1];
    forall k | 0 <= k < |files| ensures t[4 * n + 6 + k] == LogFile(files[k]) {
      assert t[4 * n + 6 + k] == log[2 * n + 3 + k];
    }
  }

  /** On a dict of data sources, the datasets the pipeline and the model are fitted on are the
      "train" source as read and as the fitted pipeline then transforms it. */
  lemma {:induction false} FittedOnTrain<S, P, M, D, X>(sources: Dict<S>, p: P, m: M, c: Collaborators<S, P, M, D, X>)
    requires "train" in Keys(sources)
    ensures FittedPipeline(sources, p, c) == c.fitPipeline(p, c.read(Lookup(sources, "train")))
    ensures FittedModel(sources, p, m, c)
            == c.fitModel(m, c.transform(FittedPipeline(sources, p, c), c.read(Lookup(sources, "train"))))
  {
    LookupMapped(sources, "train", c.read);
    LookupTransformed(FittedPipeline(sources, p, c), ReadAll(sources, c.read), "train", c.transform);
  }

  /** `run` returns one metric set per data source, under the source's name, in source order: the
      fitted model evaluated on that source as read, not as transformed. */
  lemma MetricsPerSource<S, P, M, D, X>(sources: Dict<S>, p: P, m: M, c: Collaborators<S, P, M, D, X>)
    requires "train" in Keys(sources)
    ensures var ms := Metrics(sources, p, m, c);
            && Keys(ms) == Keys(sources)
            && forall i :: 0 <= i < |ms| ==> ms[i] == (sources[i].0, c.evaluate(FittedModel(sources, p, m, c), c.read(sources[i].1)))
  {
    var ds := ReadAll(sources, c.read);
    assert Keys(ds) == Keys(sources);
  }
}
