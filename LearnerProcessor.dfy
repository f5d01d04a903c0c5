/** processors/learner_processor.py: the job that calls `utils.spacy.learn`.
    The call is an oracle from its positional arguments to what it returns
    or raises; `ShippedLearn` is the function as utils/spacy.py defines it,
    with two parameters. */
module LearnerProcessor {
  import opened Wrappers
  import opened Python
  import opened Tasks

  type Learn = seq<Value> -> Result<Value, Error>

  /** `_invoke_consume`: `learn(task['language'], task['samples'],
      task['hyperparams'])`, then `end_time` and `status` as in the trainer;
      a `learn` that raises leaves the task as it was. */
  function LearnJob(task: Task, learn: Learn, now: string): Run {
    if "language" !in task then Run(task, Fail(KeyError("language")))
    else if "samples" !in task then Run(task, Fail(KeyError("samples")))
    else if "hyperparams" !in task then Run(task, Fail(KeyError("hyperparams")))
    else match learn([task["language"], task["samples"], task["hyperparams"]])
      case Failure(e) => Run(task, Fail(e))
      case Success(path) => Finish(task, path != Value.None, now)
  }

  method InvokeConsume(task: PyDict, learn: Learn, now: string) returns (r: Outcome<Error>)
    modifies task
    ensures task.entries == LearnJob(old(task.entries), learn, now).task
    ensures r == LearnJob(old(task.entries), learn, now).outcome
  {
    var language := Lookup(task.entries, "language");
    if language.Failure? {
      return Fail(language.error);
    }
    var samples := Lookup(task.entries, "samples");
    if samples.Failure? {
      return Fail(samples.error);
    }
    var hyperparams := Lookup(task.entries, "hyperparams");
    if hyperparams.Failure? {
      return Fail(hyperparams.error);
    }
    var modelPath := learn([language.value, samples.value, hyperparams.value]);
    if modelPath.Failure? {
      return Fail(modelPath.error);
    }
    r := FinishTask(task, modelPath.value != Value.None, now);
  }

  /** `consume`: runs the job and returns normally whatever it raised. */
  method Consume(task: PyDict, learn: Learn, now: string) returns (logged: Option<Error>)
    modifies task
    ensures task.entries == LearnJob(old(task.entries), learn, now).task
    ensures logged == Logged(LearnJob(old(task.entries), learn, now).outcome)
  {
    var r := InvokeConsume(task, learn, now);
    logged := Logged(r);
  }

  /** The parameters of `utils.spacy.learn(samples, hyperparams)`. */
  const LEARN_ARITY: nat := 2

  /** `utils.spacy.learn` as defined: a call with any other number of
      arguments raises `TypeError`; otherwise it returns the pipeline
      `spacy.blank('pt')` gives, or what that raises. */
  function ShippedLearn(blank: Result<Value, Error>, args: seq<Value>): (r: Result<Value, Error>)
    ensures |args| != LEARN_ARITY ==> r.Failure? && r.error.TypeError?
    ensures |args| == LEARN_ARITY ==> r == blank
  {
    if |args| != LEARN_ARITY then Failure(TypeError("learn() takes 2 positional arguments but 3 were given"))
    else blank
  }

  /** Once `learn` returns, `end_time` is set, and `status` says whether it
      returned a model; `None` makes the job raise. */
  lemma LearnOutcome(task: Task, learn: Learn, now: string)
    requires "language" in task && "samples" in task && "hyperparams" in task
    requires HasCallback(task)
    requires learn([task["language"], task["samples"], task["hyperparams"]]).Success?
    ensures var path := learn([task["language"], task["samples"], task["hyperparams"]]).value;
      var run := LearnJob(task, learn, now);
      && ChangesOnly(task, run.task, {"end_time", "status"})
      && Callback(run.task) == Callback(task)["end_time" := Str(now)]["status" := Str(if path != Value.None then "success" else "error")]
      && (run.outcome == Pass <==> path != Value.None)
  {
    var path := learn([task["language"], task["samples"], task["hyperparams"]]).value;
    FinishSpec(task, path != Value.None, now);
  }

  /** A `learn` that raises leaves the callback as it was. */
  lemma LearnRaisesLeavesTask(task: Task, learn: Learn, now: string)
    requires "language" in task && "samples" in task && "hyperparams" in task
    requires learn([task["language"], task["samples"], task["hyperparams"]]).Failure?
    ensures LearnJob(task, learn, now) == Run(task, Fail(learn([task["language"], task["samples"], task["hyperparams"]]).error))
  {
  }

  /** As shipped, every job raises and no job ever writes its callback:
      three arguments never fit two parameters. */
  lemma ShippedNeverWrites(task: Task, blank: Result<Value, Error>, now: string)
    ensures var run := LearnJob(task, args => ShippedLearn(blank, args), now);
      run.task == task && run.outcome.Fail?
  {
    if "language" in task && "samples" in task && "hyperparams" in task {
      var args := [task["language"], task["samples"], task["hyperparams"]];
      assert |args| == 3;
    }
  }
}
