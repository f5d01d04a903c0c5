/** processors/tester_processor.py: a worker's evaluation job. The file
    system (`os.path.exists`, `unzip_file`), the learners' `load` and spaCy's
    `evaluate` are oracles; the clock is the `now` timestamp. The FastText
    learner it instantiates is the one in learners/fasttext.py. */
module TesterProcessor {
  import opened Wrappers
  import opened Python
  import opened Learners
  import opened Tasks
  import Fasttext

  type Exists = string -> bool
  /** `unzip_file(zip_path, ...)` succeeds for this archive path. */
  type Unzip = string -> bool
  type Load = (LearnerKind, string) -> Outcome<Error>
  /** spaCy's `evaluate(samples)`: the metrics, or `None` when it failed. */
  type Evaluate = Value -> Value

  const NOT_FOUND: string := "Model was not found."

  /** `unzip_file`'s result: `os.path.join(dest_path, _id)` for a non-empty
      identifier, `dest_path` itself otherwise. */
  function UnzipDestination(dest: string, id: string): string {
    if |id| > 0 then PathJoin(dest, id) else dest
  }

  /** After unzipping, the model is loaded from the same path it was looked
      for at: joining the empty identifier adds nothing. */
  lemma UnzipDestinationIsModelPath(id: string)
    ensures UnzipDestination(DEFAULT_PATH, id) == PathJoin(DEFAULT_PATH, id)
  {
    if id == [] {
      assert PathJoin(DEFAULT_PATH, id) == DEFAULT_PATH + id;
      assert DEFAULT_PATH + [] == DEFAULT_PATH;
    }
  }

  /** `l.evaluate(task['samples'])` for the learner chosen. */
  function EvaluateCall(kind: LearnerKind, samples: Value, evaluate: Evaluate): Result<Value, Error> {
    match kind
    case SpacyKind => Success(evaluate(samples))
    case FasttextKind => Fasttext.Evaluate([samples])
  }

  /** The job's effect, and the archive it tried to unzip and the path it
      loaded from, when it got that far. */
  datatype TestRun = TestRun(task: Task, outcome: Outcome<Error>, unzipped: Option<string>, loaded: Option<string>)

  /** `_invoke_consume`: choose the learner, find the model (unzipping it
      when its directory is missing; any failure there records `'error'` and
      raises `RuntimeError`), load it, evaluate, then record `metrics`,
      `end_time` and `status`. */
  function Test(task: Task, pathExists: Exists, unzip: Unzip, load: Load, evaluate: Evaluate, now: string): TestRun {
    if "type" !in task then TestRun(task, Fail(KeyError("type")), Option.None, Option.None)
    else if "id" !in task then TestRun(task, Fail(KeyError("id")), Option.None, Option.None)
    else if !task["id"].Str? then TestRun(task, Fail(TypeError("join() argument must be str")), Option.None, Option.None)
    else
      var kind := SelectLearner(task["type"]);
      var id := task["id"].s;
      var modelPath := PathJoin(DEFAULT_PATH, id);
      if pathExists(modelPath) then Loaded(task, kind, modelPath, Option.None, load, evaluate, now)
      else
        var zip := modelPath + ".zip";
        if unzip(zip) then Loaded(task, kind, UnzipDestination(DEFAULT_PATH, id), Some(zip), load, evaluate, now)
        else match SetCallbackItem(task, "status", Str("error"))
          case Failure(e) => TestRun(task, Fail(e), Some(zip), Option.None)
          case Success(t1) => TestRun(t1, Fail(RuntimeError(NOT_FOUND)), Some(zip), Option.None)
  }

  /** From `l.load(model_path)` on. */
  function Loaded(task: Task, kind: Option<LearnerKind>, path: string, zip: Option<string>,
                  load: Load, evaluate: Evaluate, now: string): TestRun
  {
    if kind.None? then TestRun(task, Fail(UnboundLocalError("l")), zip, Option.None)
    else match load(kind.value, path)
      case Fail(e) => TestRun(task, Fail(e), zip, Some(path))
      case Pass =>
        if "samples" !in task then TestRun(task, Fail(KeyError("samples")), zip, Some(path))
        else match EvaluateCall(kind.value, task["samples"], evaluate)
          case Failure(e) => TestRun(task, Fail(e), zip, Some(path))
          case Success(metrics) =>
            var run := Record(task, metrics, now);
            TestRun(run.task, run.outcome, zip, Some(path))
  }

  /** `metrics`, then `end_time`, then `status = 'success'`. */
  function Record(task: Task, metrics: Value, now: string): Run {
    match SetCallbackItem(task, "metrics", metrics)
    case Failure(e) => Run(task, Fail(e))
    case Success(t1) =>
      match SetCallbackItem(t1, "end_time", Str(now))
      case Failure(e) => Run(t1, Fail(e))
      case Success(t2) =>
        match SetCallbackItem(t2, "status", Str("success"))
        case Failure(e) => Run(t2, Fail(e))
        case Success(t3) => Run(t3, Pass)
  }

  lemma RecordSpec(task: Task, metrics: Value, now: string)
    ensures ChangesOnly(task, Record(task, metrics, now).task, {"metrics", "end_time", "status"})
    ensures HasCallback(task) ==>
      && Record(task, metrics, now).outcome == Pass
      && Callback(Record(task, metrics, now).task)
         == Callback(task)["metrics" := metrics]["end_time" := Str(now)]["status" := Str("success")]
  {
    var keys := {"metrics", "end_time", "status"};
    if HasCallback(task) {
      ChangesOnlyRefl(task, keys);
      ChangesOnlyWrite(task, task, keys, "metrics", metrics);
      SetCallbackItemEffect(task, "metrics", metrics);
      var t1 := SetCallbackItem(task, "metrics", metrics).value;
      ChangesOnlyWrite(task, t1, keys, "end_time", Str(now));
      SetCallbackItemEffect(t1, "end_time", Str(now));
      var t2 := SetCallbackItem(t1, "end_time", Str(now)).value;
      ChangesOnlyWrite(task, t2, keys, "status", Str("success"));
      SetCallbackItemEffect(t2, "status", Str("success"));
    }
  }

  /** The job's start: `task['type']`, the learner, the model path. */
  method InvokeConsume(task: PyDict, pathExists: Exists, unzip: Unzip, load: Load, evaluate: Evaluate, now: string)
    returns (r: Outcome<Error>, unzipped: Option<string>, loaded: Option<string>)
    modifies task
    ensures var run := Test(old(task.entries), pathExists, unzip, load, evaluate, now);
      task.entries == run.task && r == run.outcome && unzipped == run.unzipped && loaded == run.loaded
  {
    unzipped, loaded := Option.None, Option.None;
    var t := Lookup(task.entries, "type");
    if t.Failure? {
      return Fail(t.error), unzipped, loaded;
    }
    var kind := Select(t.value);
    var id := Lookup(task.entries, "id");
    if id.Failure? {
      return Fail(id.error), unzipped, loaded;
    }
    if !id.value.Str? {
      return Fail(TypeError("join() argument must be str")), unzipped, loaded;
    }
    var modelPath := PathJoin(DEFAULT_PATH, id.value.s);
    if !pathExists(modelPath) {
      var modelPathZip := modelPath + ".zip";
      unzipped := Some(modelPathZip);
      if !unzip(modelPathZip) {
        r := SetCallback(task, "status", Str("error"));
        if r.Pass? {
          r := Fail(RuntimeError(NOT_FOUND));
        }
        return;
      }
      modelPath := UnzipDestination(DEFAULT_PATH, id.value.s);
    }
    r, loaded := LoadAndEvaluate(task, kind, modelPath, load, evaluate, now);
  }

  /** The rest of the job: load, evaluate, record. */
  method LoadAndEvaluate(task: PyDict, kind: Option<LearnerKind>, modelPath: string, load: Load,
                         evaluate: Evaluate, now: string)
    returns (r: Outcome<Error>, loaded: Option<string>)
    modifies task
    ensures forall zip :: var run := Loaded(old(task.entries), kind, modelPath, zip, load, evaluate, now);
      task.entries == run.task && r == run.outcome && loaded == run.loaded
  {
    loaded := Option.None;
    if kind.None? {
      return Fail(UnboundLocalError("l")), loaded;
    }
    loaded := Some(modelPath);
    r := load(kind.value, modelPath);
    if r.Fail? {
      return;
    }
    var samples := Lookup(task.entries, "samples");
    if samples.Failure? {
      return Fail(samples.error), loaded;
    }
    var metrics := EvaluateCall(kind.value, samples.value, evaluate);
    if metrics.Failure? {
      return Fail(metrics.error), loaded;
    }
    r := SetCallback(task, "metrics", metrics.value);
    if r.Fail? {
      return;
    }
    r := SetCallback(task, "end_time", Str(now));
    if r.Fail? {
      return;
    }
    r := SetCallback(task, "status", Str("success"));
  }

  /** `consume`: runs the job and returns normally whatever it raised. */
  method Consume(task: PyDict, pathExists: Exists, unzip: Unzip, load: Load, evaluate: Evaluate, now: string)
    returns (logged: Option<Error>)
    modifies task
    ensures task.entries == Test(old(task.entries), pathExists, unzip, load, evaluate, now).task
    ensures logged == Logged(Test(old(task.entries), pathExists, unzip, load, evaluate, now).outcome)
  {
    var r, _, _ := InvokeConsume(task, pathExists, unzip, load, evaluate, now);
    logged := Logged(r);
  }

  // ---------------------------------------------------------------------
  // Properties of the job

  /** Whether the job gets past reading `type` and `id`. */
  predicate Addressed(task: Task) {
    "type" in task && "id" in task && task["id"].Str?
  }

  function ModelPath(task: Task): string
    requires Addressed(task)
  {
    PathJoin(DEFAULT_PATH, task["id"].s)
  }

  /** Only `metrics`, `end_time` and `status` of the callback ever change. */
  lemma TestChangesOnly(task: Task, pathExists: Exists, unzip: Unzip, load: Load, evaluate: Evaluate, now: string)
    ensures ChangesOnly(task, Test(task, pathExists, unzip, load, evaluate, now).task, {"metrics", "end_time", "status"})
  {
    var keys := {"metrics", "end_time", "status"};
    ChangesOnlyRefl(task, keys);
    if Addressed(task) {
      var p := ModelPath(task);
      if pathExists(p) {
        LoadedChangesOnly(task, SelectLearner(task["type"]), p, Option.None, load, evaluate, now);
      } else if unzip(p + ".zip") {
        LoadedChangesOnly(task, SelectLearner(task["type"]), UnzipDestination(DEFAULT_PATH, task["id"].s),
                          Some(p + ".zip"), load, evaluate, now);
      } else if HasCallback(task) {
        ChangesOnlyWrite(task, task, keys, "status", Str("error"));
      }
    }
  }

  lemma LoadedChangesOnly(task: Task, kind: Option<LearnerKind>, path: string, zip: Option<string>,
                          load: Load, evaluate: Evaluate, now: string)
    ensures ChangesOnly(task, Loaded(task, kind, path, zip, load, evaluate, now).task, {"metrics", "end_time", "status"})
    ensures kind == Some(FasttextKind) ==> Loaded(task, kind, path, zip, load, evaluate, now) == TestRun(task, Loaded(task, kind, path, zip, load, evaluate, now).outcome, zip, Loaded(task, kind, path, zip, load, evaluate, now).loaded)
    ensures kind == Some(FasttextKind) ==> Loaded(task, kind, path, zip, load, evaluate, now).outcome.Fail?
  {
    ChangesOnlyRefl(task, {"metrics", "end_time", "status"});
    if kind.Some? && load(kind.value, path).Pass? && "samples" in task {
      if kind.value == FasttextKind {
        Fasttext.EvaluateWithSamplesRaises(task["samples"]);
      } else {
        RecordSpec(task, evaluate(task["samples"]), now);
      }
    }
  }

  /** The model is looked for at `DEFAULT_PATH` joined with the task's id;
      unzipping is tried exactly when that path does not exist, on the
      path plus `.zip`; loading, when reached, is from that same path. */
  lemma TestPaths(task: Task, pathExists: Exists, unzip: Unzip, load: Load, evaluate: Evaluate, now: string)
    requires Addressed(task)
    ensures var run := Test(task, pathExists, unzip, load, evaluate, now);
      && run.unzipped == (if pathExists(ModelPath(task)) then Option.None else Some(ModelPath(task) + ".zip"))
      && (run.loaded.Some? ==> run.loaded.value == ModelPath(task))
  {
    UnzipDestinationIsModelPath(task["id"].s);
  }

  /** A model that can neither be found nor unzipped: `status` becomes
      `'error'`, `metrics` and `end_time` are not written, and the job
      raises `RuntimeError` — whatever the type. */
  lemma UnzipFailureRecordsError(task: Task, pathExists: Exists, unzip: Unzip, load: Load, evaluate: Evaluate, now: string)
    requires Addressed(task) && HasCallback(task)
    requires !pathExists(ModelPath(task)) && !unzip(ModelPath(task) + ".zip")
    ensures var run := Test(task, pathExists, unzip, load, evaluate, now);
      && ChangesOnly(task, run.task, {"status"})
      && Callback(run.task) == Callback(task)["status" := Str("error")]
      && run.outcome == Fail(RuntimeError(NOT_FOUND))
  {
    ChangesOnlyRefl(task, {"status"});
    ChangesOnlyWrite(task, task, {"status"}, "status", Str("error"));
    SetCallbackItemEffect(task, "status", Str("error"));
  }

  /** The spaCy path that finds and loads its model: `metrics` holds what
      `evaluate` returned, and `status` is `'success'` even when that is
      `None`. */
  lemma SpacySuccess(task: Task, pathExists: Exists, unzip: Unzip, load: Load, evaluate: Evaluate, now: string)
    requires Addressed(task) && HasCallback(task) && "samples" in task
    requires task["type"] == Str("spacy")
    requires pathExists(ModelPath(task)) || unzip(ModelPath(task) + ".zip")
    requires load(SpacyKind, ModelPath(task)) == Pass
    ensures var run := Test(task, pathExists, unzip, load, evaluate, now);
      && run.outcome == Pass
      && Callback(run.task)
         == Callback(task)["metrics" := evaluate(task["samples"])]["end_time" := Str(now)]["status" := Str("success")]
  {
    UnzipDestinationIsModelPath(task["id"].s);
    RecordSpec(task, evaluate(task["samples"]), now);
  }

  /** With `'fasttext'` the job never succeeds: that learner's `evaluate`
      takes no samples, so `metrics` and `end_time` are never written. */
  lemma FasttextNeverRecords(task: Task, pathExists: Exists, unzip: Unzip, load: Load, evaluate: Evaluate, now: string)
    requires "type" in task && task["type"] == Str("fasttext")
    ensures var run := Test(task, pathExists, unzip, load, evaluate, now);
      run.outcome.Fail? && ChangesOnly(task, run.task, {"status"})
  {
    var keys := {"status"};
    ChangesOnlyRefl(task, keys);
    if Addressed(task) {
      var p := ModelPath(task);
      if pathExists(p) {
        LoadedChangesOnly(task, Some(FasttextKind), p, Option.None, load, evaluate, now);
      } else if unzip(p + ".zip") {
        LoadedChangesOnly(task, Some(FasttextKind), UnzipDestination(DEFAULT_PATH, task["id"].s),
                          Some(p + ".zip"), load, evaluate, now);
      } else if HasCallback(task) {
        ChangesOnlyWrite(task, task, keys, "status", Str("error"));
      }
    }
  }

  /** An unknown type raises; the callback changes only when the model was
      missing too, and then only its `status`. */
  lemma UnknownTypeRaises(task: Task, pathExists: Exists, unzip: Unzip, load: Load, evaluate: Evaluate, now: string)
    requires Addressed(task) && SelectLearner(task["type"]).None?
    ensures var run := Test(task, pathExists, unzip, load, evaluate, now);
      && run.outcome.Fail?
      && ChangesOnly(task, run.task, {"status"})
      && (pathExists(ModelPath(task)) || unzip(ModelPath(task) + ".zip") ==>
            run == TestRun(task, Fail(UnboundLocalError("l")), run.unzipped, Option.None))
  {
    ChangesOnlyRefl(task, {"status"});
    if HasCallback(task) {
      ChangesOnlyWrite(task, task, {"status"}, "status", Str("error"));
    }
  }
}
