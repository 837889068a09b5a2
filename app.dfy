/** `PypeApp`, the serving side: which dataset of a prediction request goes to each tracking sink,
    the warnings about sinks that match no dataset field, and the home page. The FastAPI app, the
    model loading and the execution of the scheduled writes are not modelled. */
module Serving {
  import opened Results
  import opened Dicts
  import opened Paths

  datatype LogRecord = Info(message: string) | Warning(message: string) | Error(message: string)

  /** A `logging.Logger`, as the records it has been given. */
  class Logger {
    var records: seq<LogRecord>

    constructor ()
      ensures records == []
    {
      records := [];
    }

    method Log(r: LogRecord)
      modifies this
      ensures records == old(records) + [r]
    {
      records := records + [r];
    }
  }

  /** `add_task(write_in_background, sink=sink, data=data)`. */
  datatype Task<S, D> = WriteInBackground(sink: S, data: D)

  /** FastAPI's `BackgroundTasks`, as the tasks added to it. */
  class BackgroundTasks<S, D> {
    var tasks: seq<Task<S, D>>

    constructor ()
      ensures tasks == []
    {
      tasks := [];
    }
  }

  const TrackingMessage := "Logging records request"
  const HomePageMessage := "Homepage request"

  function NotFoundMessage(name: string): string {
    "Not storing data to sink `" + name + "` since no data by that name was found."
  }

  function StoringMessage(name: string): string {
    "Storing data to sink `" + name + "`."
  }

  function SinkErrorMessage(name: string, e: string): string {
    "Encountered error while sending data to " + name + ": " + e
  }

  function NoFieldMessage(name: string): string {
    "No dataset named `" + name + "` found in the fields of input or output DataSetModels"
  }

  function HomePageText(name: string): string {
    "Welcome to the Pype FastAPI app for " + name
  }

  /** A request's `DataSet`: a dict whose values may be `None`. */
  type Data<D> = map<string, Option<D>>

  /** The dataset logged to the sink `name`: the output of that name if there is one, else the
      input of that name; `None` when neither exists or the value found is `None`. */
  function Pick<D>(name: string, inputs: Data<D>, outputs: Data<D>): (r: Option<D>)
    ensures name in outputs ==> r == outputs[name]
    ensures name !in outputs && name in inputs ==> r == inputs[name]
    ensures name !in outputs && name !in inputs ==> r == None
  {
    if name in outputs then outputs[name]
    else if name in inputs then inputs[name]
    else None
  }

  /** The records one iteration of the `_handle_tracking` loop leaves; `addTaskError` gives the
      message of the exception `add_task` raises for a sink and dataset, if any. */
  function SinkLogs<S, D>(name: string, sink: S, inputs: Data<D>, outputs: Data<D>, addTaskError: (S, D) -> Option<string>)
    : seq<LogRecord>
  {
    match Pick(name, inputs, outputs)
    case None => [Warning(NotFoundMessage(name))]
    case Some(d) =>
      [Info(StoringMessage(name))]
      + match addTaskError(sink, d) case None => [] case Some(e) => [Error(SinkErrorMessage(name, e))]
  }

  /** The tasks one iteration adds. */
  function SinkTasks<S, D>(sink: S, pick: Option<D>, addTaskError: (S, D) -> Option<string>): seq<Task<S, D>> {
    match pick
    case None => []
    case Some(d) => if addTaskError(sink, d).Some? then [] else [WriteInBackground(sink, d)]
  }

  /** The records of the first `n` iterations. */
  function TrackingLogs<S, D>(servers: seq<(string, S)>, n: nat, inputs: Data<D>, outputs: Data<D>,
                              addTaskError: (S, D) -> Option<string>): seq<LogRecord>
    requires n <= |servers|
  {
    if n == 0 then []
    else
      TrackingLogs(servers, n - 1, inputs, outputs, addTaskError)
      + SinkLogs(servers[n - 1].0, servers[n - 1].1, inputs, outputs, addTaskError)
  }

  /** The tasks of the first `n` iterations. */
  function TrackingTasks<S, D>(servers: seq<(string, S)>, n: nat, inputs: Data<D>, outputs: Data<D>,
                               addTaskError: (S, D) -> Option<string>): seq<Task<S, D>>
    requires n <= |servers|
  {
    if n == 0 then []
    else
      TrackingTasks(servers, n - 1, inputs, outputs, addTaskError)
      + SinkTasks(servers[n - 1].1, Pick(servers[n - 1].0, inputs, outputs), addTaskError)
  }

  /** The warnings of the first `n` iterations of `_verify_tracking_servers`, given the field
      names of the input and output models. */
  function FieldWarnings<S>(servers: seq<(string, S)>, n: nat, inputFields: set<string>, outputFields: set<string>)
    : seq<LogRecord>
    requires n <= |servers|
  {
    if n == 0 then []
    else
      var name := servers[n - 1].0;
      FieldWarnings(servers, n - 1, inputFields, outputFields)
      + if name in inputFields || name in outputFields then [] else [Warning(NoFieldMessage(name))]
  }

  class PypeApp<S> {
    const name: string
    var folder: Path
    const trackingServers: Option<Dict<S>>

    /** The dataclass fields; `__post_init__` turns a string folder into a Path. */
    constructor (name: string, folder: PathArg, trackingServers: Option<Dict<S>>)
      ensures this.name == name && this.folder == ToPath(folder) && this.trackingServers == trackingServers
    {
      this.name := name;
      this.folder := ToPath(folder);
      this.trackingServers := trackingServers;
    }

    /** `home_page`. */
    method HomePage(logger: Logger) returns (page: string)
      modifies logger
      ensures logger.records == old(logger.records) + [Info(HomePageMessage)]
      ensures page == HomePageText(name)
    {
      logger.Log(Info(HomePageMessage));
      page := "Welcome to the Pype FastAPI app for " + name;
    }

    /** `_handle_tracking`: every sink, in order, in its own `try`. */
    method HandleTracking<D>(inputs: Data<D>, outputs: Data<D>, logger: Logger, background: BackgroundTasks<S, D>,
                             addTaskError: (S, D) -> Option<string>)
      modifies logger, background
      ensures trackingServers.None? ==> logger.records == old(logger.records) && background.tasks == old(background.tasks)
      ensures trackingServers.Some? ==>
                && logger.records == old(logger.records) + [Info(TrackingMessage)]
                                     + TrackingLogs(trackingServers.value, |trackingServers.value|, inputs, outputs, addTaskError)
                && background.tasks == old(background.tasks) + TrackingTasks(trackingServers.value, |trackingServers.value|, inputs, outputs, addTaskError)
    {
      if trackingServers.None? {
        return;
      }
      logger.Log(Info(TrackingMessage));
      TrackSinks(trackingServers.value, inputs, outputs, logger, background, addTaskError);
    }

    /** `_verify_tracking_servers`: a warning for each sink named after no input or output field;
        it never raises. */
    method VerifyTrackingServers(inputFields: set<string>, outputFields: set<string>, logger: Logger)
      modifies logger
      ensures trackingServers.None? ==> logger.records == old(logger.records)
      ensures trackingServers.Some? ==>
                logger.records == old(logger.records) + FieldWarnings(trackingServers.value, |trackingServers.value|, inputFields, outputFields)
    {
      if trackingServers.None? {
        return;
      }
      var servers := trackingServers.value;
      var i := 0;
      while i < |servers|
        invariant 0 <= i <= |servers|
        invariant logger.records == old(logger.records) + FieldWarnings(servers, i, inputFields, outputFields)
      {
        var name := servers[i].0;
        if !(name in inputFields || name in outputFields) {
          logger.Log(Warning(NoFieldMessage(name)));
        }
        AppendAssoc(old(logger.records), FieldWarnings(servers, i, inputFields, outputFields),
                    if name in inputFields || name in outputFields then [] else [Warning(NoFieldMessage(name))]);
        i := i + 1;
      }
    }
  }

  /** The loop of `_handle_tracking`. */
  method TrackSinks<S, D>(servers: seq<(string, S)>, inputs: Data<D>, outputs: Data<D>, logger: Logger,
                          background: BackgroundTasks<S, D>, addTaskError: (S, D) -> Option<string>)
    modifies logger, background
    ensures logger.records == old(logger.records) + TrackingLogs(servers, |servers|, inputs, outputs, addTaskError)
    ensures background.tasks == old(background.tasks) + TrackingTasks(servers, |servers|, inputs, outputs, addTaskError)
  {
    var i := 0;
    while i < |servers|
      invariant 0 <= i <= |servers|
      invariant logger.records == old(logger.records) + TrackingLogs(servers, i, inputs, outputs, addTaskError)
      invariant background.tasks == old(background.tasks) + TrackingTasks(servers, i, inputs, outputs, addTaskError)
    {
      TrackSink(servers[i].0, servers[i].1, inputs, outputs, logger, background, addTaskError);
      AppendAssoc(old(logger.records), TrackingLogs(servers, i, inputs, outputs, addTaskError),
                  SinkLogs(servers[i].0, servers[i].1, inputs, outputs, addTaskError));
      AppendAssoc(old(background.tasks), TrackingTasks(servers, i, inputs, outputs, addTaskError),
                  SinkTasks(servers[i].1, Pick(servers[i].0, inputs, outputs), addTaskError));
      i := i + 1;
    }
  }

  lemma AppendAssoc<T>(a: seq<T>, b: seq<T>, c: seq<T>)
    ensures a + b + c == a + (b + c)
  {
  }

  /** The body of one `try` of `_handle_tracking`: an exception from `add_task` is logged
      instead of escaping. */
  method TrackSink<S, D>(name: string, sink: S, inputs: Data<D>, outputs: Data<D>, logger: Logger,
                         background: BackgroundTasks<S, D>, addTaskError: (S, D) -> Option<string>)
    modifies logger, background
    ensures logger.records == old(logger.records) + SinkLogs(name, sink, inputs, outputs, addTaskError)
    ensures background.tasks == old(background.tasks) + SinkTasks(sink, Pick(name, inputs, outputs), addTaskError)
  {
    var ds: Option<D> := None;
    if name in outputs {
      ds := outputs[name];
    } else if name in inputs {
      ds := inputs[name];
    }
    if ds.None? {
      logger.Log(Warning(NotFoundMessage(name)));
    } else {
      logger.Log(Info(StoringMessage(name)));
      var error := addTaskError(sink, ds.value);
      if error.Some? {
        logger.Log(Error(SinkErrorMessage(name, error.value)));
      } else {
        background.tasks := background.tasks + [WriteInBackground(sink, ds.value)];
      }
    }
  }

  /** Each sink adds at most one task. */
  lemma {:induction false} TasksAtMostSinks<S, D>(servers: seq<(string, S)>, n: nat, inputs: Data<D>, outputs: Data<D>,
                                                  addTaskError: (S, D) -> Option<string>)
    requires n <= |servers|
    ensures |TrackingTasks(servers, n, inputs, outputs, addTaskError)| <= n
  {
    if n > 0 {
      TasksAtMostSinks(servers, n - 1, inputs, outputs, addTaskError);
    }
  }

  /** A task is scheduled exactly for each sink whose dataset was found and not `None` and whose
      `add_task` did not raise, with that dataset; a failing sink does not keep later ones from
      being scheduled. */
  lemma {:induction false} TaskScheduled<S, D>(servers: seq<(string, S)>, n: nat, inputs: Data<D>, outputs: Data<D>,
                                               addTaskError: (S, D) -> Option<string>, t: Task<S, D>)
    requires n <= |servers|
    ensures t in TrackingTasks(servers, n, inputs, outputs, addTaskError) <==>
            exists i :: 0 <= i < n && Pick(servers[i].0, inputs, outputs) == Some(t.data)
                        && servers[i].1 == t.sink && addTaskError(t.sink, t.data).None?
  {
    if n > 0 {
      TaskScheduled(servers, n - 1, inputs, outputs, addTaskError, t);
    }
  }

  /** The warnings `_handle_tracking` logs name exactly the sinks without data. */
  lemma {:induction false} TrackingWarnings<S, D>(servers: seq<(string, S)>, n: nat, inputs: Data<D>, outputs: Data<D>,
                                                  addTaskError: (S, D) -> Option<string>, m: string)
    requires n <= |servers|
    ensures Warning(m) in TrackingLogs(servers, n, inputs, outputs, addTaskError) <==>
            exists i :: 0 <= i < n && Pick(servers[i].0, inputs, outputs).None? && m == NotFoundMessage(servers[i].0)
  {
    if n > 0 {
      TrackingWarnings(servers, n - 1, inputs, outputs, addTaskError, m);
    }
  }

  /** Every exception `add_task` raises is logged as an error, and only those are. */
  lemma {:induction false} TrackingErrors<S, D>(servers: seq<(string, S)>, n: nat, inputs: Data<D>, outputs: Data<D>,
                                                addTaskError: (S, D) -> Option<string>, m: string)
    requires n <= |servers|
    ensures Error(m) in TrackingLogs(servers, n, inputs, outputs, addTaskError) <==>
            exists i, d, e :: 0 <= i < n && Pick(servers[i].0, inputs, outputs) == Some(d)
                              && addTaskError(servers[i].1, d) == Some(e) && m == SinkErrorMessage(servers[i].0, e)
  {
    if n > 0 {
      TrackingErrors(servers, n - 1, inputs, outputs, addTaskError, m);
      var k := n - 1;
      var p := Pick(servers[k].0, inputs, outputs);
      if p.Some? && addTaskError(servers[k].1, p.value).Some? {
        assert SinkLogs(servers[k].0, servers[k].1, inputs, outputs, addTaskError)
               == [Info(StoringMessage(servers[k].0)), Error(SinkErrorMessage(servers[k].0, addTaskError(servers[k].1, p.value).value))];
      }
    }
  }

  /** `_verify_tracking_servers` warns exactly about the sinks named after no field, at most once
      per sink. */
  lemma {:induction false} FieldWarningsExact<S>(servers: seq<(string, S)>, n: nat, inputFields: set<string>,
                                                 outputFields: set<string>, m: string)
    requires n <= |servers|
    ensures |FieldWarnings(servers, n, inputFields, outputFields)| <= n
    ensures Warning(m) in FieldWarnings(servers, n, inputFields, outputFields) <==>
            exists i :: 0 <= i < n && servers[i].0 !in inputFields && servers[i].0 !in outputFields
                        && m == NoFieldMessage(servers[i].0)
  {
    if n > 0 {
      FieldWarningsExact(servers, n - 1, inputFields, outputFields, m);
    }
  }
}
