/** What the three processors share: the task dictionary a worker receives
    (`{'type', 'id', 'language', 'samples', 'hyperparams', 'callback'}`),
    the choice of learner by `task['type']`, and writes into the nested
    `task['callback']` dictionary. */
module Tasks {
  import opened Wrappers
  import opened Python

  type Task = map<string, Value>

  /** The learner classes a processor can instantiate. */
  datatype LearnerKind = SpacyKind | FasttextKind

  /** `if task['type'] == 'spacy': ... elif task['type'] == 'fasttext': ...`;
      `None` when neither branch runs and `l` stays unbound. */
  function SelectLearner(t: Value): (r: Option<LearnerKind>)
    ensures r == Some(SpacyKind) <==> t == Str("spacy")
    ensures r == Some(FasttextKind) <==> t == Str("fasttext")
    ensures r.None? <==> t != Str("spacy") && t != Str("fasttext")
  {
    if t == Str("spacy") then Some(SpacyKind)
    else if t == Str("fasttext") then Some(FasttextKind)
    else Option.None
  }

  /** The same choice, as the processors make it: the two comparisons in order. */
  method Select(t: Value) returns (kind: Option<LearnerKind>)
    ensures kind == SelectLearner(t)
  {
    kind := Option.None;
    if t == Str("spacy") {
      kind := Some(SpacyKind);
    } else if t == Str("fasttext") {
      kind := Some(FasttextKind);
    }
  }

  /** The callback dictionary, when there is one. */
  predicate HasCallback(task: Task) {
    "callback" in task && task["callback"].Dict?
  }

  function Callback(task: Task): map<string, Value> {
    if HasCallback(task) then task["callback"].fields else map[]
  }

  /** `task['callback'][k] = v`: `KeyError` without a callback, `TypeError`
      when it is not a dictionary. */
  function SetCallbackItem(task: Task, k: string, v: Value): (r: Result<Task, Error>)
    ensures "callback" !in task ==> r == Failure(KeyError("callback"))
    ensures "callback" in task && !task["callback"].Dict? ==> r.Failure? && r.error.TypeError?
    ensures HasCallback(task) ==> r.Success?
  {
    if "callback" !in task then Failure(KeyError("callback"))
    else if !task["callback"].Dict? then Failure(TypeError("object does not support item assignment"))
    else Success(task["callback" := Dict(task["callback"].fields[k := v])])
  }

  /** A successful write changes the one callback entry and nothing else. */
  lemma SetCallbackItemEffect(task: Task, k: string, v: Value)
    requires HasCallback(task)
    ensures var t := SetCallbackItem(task, k, v).value;
      && t.Keys == task.Keys && HasCallback(t)
      && (forall k' :: k' in task && k' != "callback" ==> t[k'] == task[k'])
      && Callback(t) == Callback(task)[k := v]
  {
  }

  /** `task[k]` */
  function Lookup(task: Task, k: string): (r: Result<Value, Error>)
    ensures k in task ==> r == Success(task[k])
    ensures k !in task ==> r == Failure(KeyError(k))
  {
    if k in task then Success(task[k]) else Failure(KeyError(k))
  }

  /** `task'` differs from `task` at most in the callback entries `keys`:
      every other key of the task and of its callback keeps its value, and
      no key is added outside `keys`. */
  predicate ChangesOnly(task: Task, task': Task, keys: set<string>) {
    && task'.Keys == task.Keys
    && (forall k :: k in task && k != "callback" ==> task'[k] == task[k])
    && (HasCallback(task) <==> HasCallback(task'))
    && (!HasCallback(task) ==> task' == task)
    && (forall k :: k in Callback(task) && k !in keys ==> k in Callback(task') && Callback(task')[k] == Callback(task)[k])
    && (forall k :: k in Callback(task') ==> k in Callback(task) || k in keys)
  }

  lemma ChangesOnlyRefl(task: Task, keys: set<string>)
    ensures ChangesOnly(task, task, keys)
  {
  }

  lemma {:induction false} ChangesOnlyWrite(task: Task, task': Task, keys: set<string>, k: string, v: Value)
    requires ChangesOnly(task, task', keys)
    requires k in keys
    requires SetCallbackItem(task', k, v).Success?
    ensures ChangesOnly(task, SetCallbackItem(task', k, v).value, keys)
  {
    SetCallbackItemEffect(task', k, v);
  }

  /** The outcome of `_invoke_consume`: the task afterwards and whether it
      returned or raised. */
  datatype Run = Run(task: Task, outcome: Outcome<Error>)

  const TRAIN_FAILED: string := "Model could not been properly trained."

  /** The shared ending of the trainer and the learner processor once the
      learner returned: `end_time`, then `status`, then `RuntimeError` when
      nothing was trained. */
  function Finish(task: Task, trained: bool, now: string): Run {
    match SetCallbackItem(task, "end_time", Str(now))
    case Failure(e) => Run(task, Fail(e))
    case Success(t1) =>
      match SetCallbackItem(t1, "status", Str(if trained then "success" else "error"))
      case Failure(e) => Run(t1, Fail(e))
      case Success(t2) => Run(t2, if trained then Pass else Fail(RuntimeError(TRAIN_FAILED)))
  }

  /** With a callback, both writes happen; the status says whether a model
      was trained and the call raises exactly when none was. Without one,
      nothing changes and the write's own error propagates. */
  lemma FinishSpec(task: Task, trained: bool, now: string)
    ensures ChangesOnly(task, Finish(task, trained, now).task, {"end_time", "status"})
    ensures HasCallback(task) ==>
      && Callback(Finish(task, trained, now).task)
         == Callback(task)["end_time" := Str(now)]["status" := Str(if trained then "success" else "error")]
      && Finish(task, trained, now).outcome == (if trained then Pass else Fail(RuntimeError(TRAIN_FAILED)))
    ensures !HasCallback(task) ==> Finish(task, trained, now).task == task && Finish(task, trained, now).outcome.Fail?
  {
    if HasCallback(task) {
      ChangesOnlyRefl(task, {"end_time", "status"});
      var t1 := SetCallbackItem(task, "end_time", Str(now)).value;
      ChangesOnlyWrite(task, task, {"end_time", "status"}, "end_time", Str(now));
      SetCallbackItemEffect(task, "end_time", Str(now));
      ChangesOnlyWrite(task, t1, {"end_time", "status"}, "status", Str(if trained then "success" else "error"));
      SetCallbackItemEffect(t1, "status", Str(if trained then "success" else "error"));
    }
  }

  /** `task['callback'][k] = v` on the worker's task dictionary. */
  method SetCallback(task: PyDict, k: string, v: Value) returns (r: Outcome<Error>)
    modifies task
    ensures SetCallbackItem(old(task.entries), k, v).Success? ==>
      task.entries == SetCallbackItem(old(task.entries), k, v).value && r == Pass
    ensures SetCallbackItem(old(task.entries), k, v).Failure? ==>
      task.entries == old(task.entries) && r == Fail(SetCallbackItem(old(task.entries), k, v).error)
  {
    if "callback" !in task.entries {
      return Fail(KeyError("callback"));
    }
    var callback := task.entries["callback"];
    if !callback.Dict? {
      return Fail(TypeError("object does not support item assignment"));
    }
    task.SetItem("callback", Dict(callback.fields[k := v]));
    r := Pass;
  }

  /** Shared tail of the trainer's and learner processor's `_invoke_consume`. */
  method FinishTask(task: PyDict, trained: bool, now: string) returns (r: Outcome<Error>)
    modifies task
    ensures task.entries == Finish(old(task.entries), trained, now).task
    ensures r == Finish(old(task.entries), trained, now).outcome
  {
    r := SetCallback(task, "end_time", Str(now));
    if r.Fail? {
      return;
    }
    if !trained {
      r := SetCallback(task, "status", Str("error"));
      if r.Fail? {
        return;
      }
      return Fail(RuntimeError(TRAIN_FAILED));
    }
    r := SetCallback(task, "status", Str("success"));
  }

  /** `consume`: whatever `_invoke_consume` raised is logged, not raised. */
  function Logged(outcome: Outcome<Error>): (logged: Option<Error>)
    ensures logged.Some? <==> outcome.Fail?
    ensures outcome.Fail? ==> logged.value == outcome.error
  {
    if outcome.Fail? then Some(outcome.error) else Option.None
  }
}
