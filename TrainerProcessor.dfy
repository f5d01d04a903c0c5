/** processors/trainer_processor.py: a worker's training job. The learner's
    `fit` is an oracle from the learner kind and the three task values to
    what the call comes to; the clock is the `now` timestamp. */
module TrainerProcessor {
  import opened Wrappers
  import opened Python
  import opened Tasks

  /** What `l.fit(...)` comes to: the model path it returns (`None` when
      training failed) and `task['hyperparams']` as the learner leaves it,
      since the learners fill their defaults into that same dictionary. */
  datatype FitCall = FitCall(path: Option<string>, hyperparams: Value)

  type Fit = (LearnerKind, Value, Value, Value) -> FitCall

  /** The type selects a learner and the three values `fit` reads exist. */
  predicate ReachesFit(task: Task) {
    "type" in task && SelectLearner(task["type"]).Some?
    && "language" in task && "samples" in task && "hyperparams" in task
  }

  function CallFit(task: Task, fit: Fit): FitCall
    requires ReachesFit(task)
  {
    fit(SelectLearner(task["type"]).value, task["language"], task["samples"], task["hyperparams"])
  }

  /** The task once `fit` has returned: only `hyperparams` can differ. */
  function AfterFit(task: Task, fit: Fit): (r: Task)
    ensures r.Keys == task.Keys
    ensures forall k :: k in task && k != "hyperparams" ==> r[k] == task[k]
    ensures ReachesFit(task) ==> r["hyperparams"] == CallFit(task, fit).hyperparams
    ensures !ReachesFit(task) ==> r == task
  {
    if ReachesFit(task) then task["hyperparams" := CallFit(task, fit).hyperparams] else task
  }

  /** `_invoke_consume`: read the type, choose the learner, call `fit` with
      `task['language']`, `task['samples']`, `task['hyperparams']`, then
      record `end_time` and `status`. `l.fit` fails on the unbound `l`
      before any of its arguments is read. */
  function Train(task: Task, fit: Fit, now: string): Run {
    if "type" !in task then Run(task, Fail(KeyError("type")))
    else
      var kind := SelectLearner(task["type"]);
      if kind.None? then Run(task, Fail(UnboundLocalError("l")))
      else if "language" !in task then Run(task, Fail(KeyError("language")))
      else if "samples" !in task then Run(task, Fail(KeyError("samples")))
      else if "hyperparams" !in task then Run(task, Fail(KeyError("hyperparams")))
      else
        var call := fit(kind.value, task["language"], task["samples"], task["hyperparams"]);
        Finish(task["hyperparams" := call.hyperparams], call.path.Some?, now)
  }

  method InvokeConsume(task: PyDict, fit: Fit, now: string) returns (r: Outcome<Error>)
    modifies task
    ensures task.entries == Train(old(task.entries), fit, now).task
    ensures r == Train(old(task.entries), fit, now).outcome
  {
    var t := Lookup(task.entries, "type");
    if t.Failure? {
      return Fail(t.error);
    }
    var kind := Select(t.value);
    if kind.None? {
      return Fail(UnboundLocalError("l"));
    }
    var language := Lookup(task.entries, "language");
    if language.Failure? {
      return Fail(language.error);
    }
    var samples := Lookup(task.entries, "samples");
    if samples.Failure? {
      return Fail(samples.error);
    }
    var hyperparams := Lookup(task.entries, "hyperparams");
    if hyperparams.Failure? {
      return Fail(hyperparams.error);
    }
    var call := fit(kind.value, language.value, samples.value, hyperparams.value);
    task.SetItem("hyperparams", call.hyperparams);
    r := FinishTask(task, call.path.Some?, now);
  }

  /** `consume`: runs the job and returns normally whatever it raised. */
  method Consume(task: PyDict, fit: Fit, now: string) returns (logged: Option<Error>)
    modifies task
    ensures task.entries == Train(old(task.entries), fit, now).task
    ensures logged == Logged(Train(old(task.entries), fit, now).outcome)
  {
    var r := InvokeConsume(task, fit, now);
    logged := Logged(r);
  }

  /** A type that is neither `'spacy'` nor `'fasttext'` raises before the
      callback is touched. */
  lemma UnknownTypeLeavesTask(task: Task, fit: Fit, now: string)
    requires "type" in task && task["type"] != Str("spacy") && task["type"] != Str("fasttext")
    ensures Train(task, fit, now) == Run(task, Fail(UnboundLocalError("l")))
  {
  }

  /** Beside what the learner does to `hyperparams`, only the callback's
      `end_time` and `status` ever change. */
  lemma TrainChangesOnlyStatus(task: Task, fit: Fit, now: string)
    ensures ChangesOnly(AfterFit(task, fit), Train(task, fit, now).task, {"end_time", "status"})
  {
    ChangesOnlyRefl(task, {"end_time", "status"});
    if ReachesFit(task) {
      FinishSpec(AfterFit(task, fit), CallFit(task, fit).path.Some?, now);
    }
  }

  /** For a well-formed task: `hyperparams` is what the learner left,
      `end_time` is set on both outcomes, `status` is `'success'` exactly
      when `fit` returned a path, and the job raises `RuntimeError` exactly
      when it did not. */
  lemma TrainOutcome(task: Task, fit: Fit, now: string)
    requires ReachesFit(task)
    requires HasCallback(task)
    ensures var call := CallFit(task, fit);
      var run := Train(task, fit, now);
      && run.task["hyperparams"] == call.hyperparams
      && Callback(run.task) == Callback(task)["end_time" := Str(now)]["status" := Str(if call.path.Some? then "success" else "error")]
      && (run.outcome == Pass <==> call.path.Some?)
      && (call.path.None? ==> run.outcome == Fail(RuntimeError(TRAIN_FAILED)))
  {
    var call := CallFit(task, fit);
    FinishSpec(AfterFit(task, fit), call.path.Some?, now);
  }
}
