# brainy's job dispatch, learners and processors in Dafny

This project models the sequential core of *brainy*, a small service that
trains, tests and runs intent-classification (FastText) and named-entity
(spaCy) models on request. Three parts are modelled:

- **Dispatch** (`utils/process_manager.py`). A background loop takes jobs
  from a FIFO queue and chooses a device: a GPU when GPUtil finds one, the
  CPU otherwise. It attaches that device configuration to the job and
  starts a worker process in a CPU or a GPU pool. Before each dequeue, both
  pools are drained of dead workers. An interrupt handler terminates every
  pooled worker.
  - `Processes.Step` specifies one iteration as a function over a
    `LoopState`: the queue, the two pools and the process table.
  - The classes `JobQueue`, `ProcessTable`, `ProcessManager` and `WorkLoop`
    implement the iteration imperatively and are proved against `Step`.
- **Learners** (`learners/fasttext_learner.py`, `learners/fasttext.py`,
  `learners/spacy.py`). These modules turn request samples into training
  data:
  - FastText's `__label__<label> … text` lines;
  - spaCy's `(text, {'entities': [(start, end, label)]})` pairs.

  The `fit` of `learners/fasttext_learner.py` and of `learners/spacy.py`
  fills missing hyperparameters with defaults in the caller's dictionary;
  `learners/fasttext.py` never reads them. `fit` and `evaluate` return
  `None` on any failure, while `predict` has no `try` and raises
  (`AttributeError`, `IndexError` or `TypeError`). `predict` reshapes the
  model's output into the response format. FastText and spaCy are oracles
  passed in as function parameters.
- **Processors** (`processors/*_processor.py`). A worker runs one of three
  jobs: training, testing or the plain spaCy `learn` call. Each job
  chooses a learner by `task['type']` and calls it. It then writes
  `metrics`, `end_time` and `status` into `task['callback']` in order, or
  raises. `consume` logs every exception instead of propagating it.
  - Each job is specified as a function from the task dictionary to the
    new dictionary and the outcome (returned or raised).
  - Each job's methods mutate a `PyDict`, the model of a Python dict
    updated in place, and are proved against that function.

The helper modules model what the core relies on:
- `Wrappers`: `Option`, `Result` and `Outcome`.
- `Python`: JSON-like values, exceptions and dictionaries updated in place.
- `Text`: ASCII `lower`, `upper`, `strip`, `replace(pat, '')`,
  `'\n'.join`, `split` and `str(n)`.
- `Learners`: `os.path.join`, the model path, and hyperparameter
  defaulting.
- `Tasks`: what the three processors share.

### Behaviour as shipped that the model makes explicit

- **The learner processor always raises.**
  `processors/learner_processor.py:52` calls `utils.spacy.learn` with
  three arguments, but `utils/spacy.py:6` takes two.
  `LearnerProcessor.ShippedNeverWrites` proves that such a job always
  raises and never writes its callback.
- **The tester never succeeds for FastText.** The processors import
  `learners/fasttext.py`, whose `evaluate` takes no samples. So a tester
  job of type `'fasttext'` always raises (`TesterProcessor.FasttextNeverRecords`).
- **The tester's unknown-type path differs from the trainer's.** A job
  with an unknown type fails on the unbound `l` only at
  `processors/tester_processor.py:93`. When the model directory is
  missing and cannot be unzipped, it writes `status = 'error'` first.
  `TesterProcessor.UnknownTypeRaises` states exactly that: the callback
  changes only in `status`, and only on that path. Unlike the trainer, the
  tester does not raise before the callback is touched.

## Model

| member | source | states |
|---|---|---|
| Processes.GpuSettings | utils/process_manager.py:58-64 | each process is taken to need a load of 10.0 and a memory of 100.0 |
| Processes.GpuThresholds | utils/process_manager.py:78-81 | the thresholds passed to GPUtil are `1 - load` and `1 - memory`: -9.0 and -99.0 |
| Processes.GetDeviceConfig | utils/process_manager.py:66-105 | a found device id gives the GPU config with that `DEVICE_ID` and `MEMORY_FRACTION`; a raising query or an empty id list (where indexing raises) gives `{"cpu": {}}`; the result is `None` exactly when the first id is `None`; the config selects the GPU exactly when an id was found |
| Processes.DrainMembers | utils/process_manager.py:111-117 | a handle is kept by the drain iff it is in the pool and alive, and terminated iff it is in the pool and dead |
| Processes.DrainAppend | utils/process_manager.py:111-117 | draining distributes over concatenation, so survivors and terminated handles each keep their relative order |
| Processes.DrainPartition | utils/process_manager.py:111-117 | survivors and terminated handles together are a permutation of the pool |
| Processes.DrainAllAlive | utils/process_manager.py:111-117 | a pool whose handles are all alive drains to itself and nothing is terminated |
| Processes.DrainIdempotent | utils/process_manager.py:107-117 | draining a drained pool changes nothing and terminates nothing |
| Processes.Drain | utils/process_manager.py:138-139 | the two drains leave the queue, the workers and liveness unchanged; the CPU pool becomes its live handles |
| Processes.WorkerNameInjective | utils/process_manager.py:148 | two worker names with the same pool label are equal only when their numbers are |
| Processes.StepCases | utils/process_manager.py:136-161 | one iteration: the queue loses its head, if any; it blocks iff the queue is empty, skips iff the head is falsy, and raises iff the head is a job and the config is `None`; without a dispatch the state is the drained state; a dispatch starts exactly one worker, named from the drained pools, whose payload is the job's data with `device_config` set, and appends its handle to the GPU pool iff the config has a truthy `"gpu"` entry, leaving the other pool unchanged |
| Processes.Shutdown | utils/process_manager.py:123-131 | the handler terminates the CPU pool then the GPU pool, alive or not; no pooled handle stays alive and no other handle is affected |
| Processes.StepFifo | utils/process_manager.py:141-161 | an iteration whose config is not `None` does not raise; it takes at most the head and starts at most one worker, carrying that job |
| Processes.RunIsFifo | utils/process_manager.py:136-161 | over any run whose device queries never give `None`, the queue loses a prefix, and the workers started carry that prefix's truthy jobs in submission order |
| Processes.AsWrittenGpuPoolMirrorsCpuPool | utils/process_manager.py:139 | as written, the GPU pool after the drains equals the drained CPU pool, and only the CPU pool's dead handles are terminated |
| Processes.AsWrittenNamesCountCpuPool | utils/process_manager.py:156 | as written, every new worker is numbered from the drained CPU pool, whichever pool it goes to |
| Processes.CorrectedNamesCountOwnPool | utils/process_manager.py:148 | with both lines corrected, a worker is numbered from the length of its own drained pool plus one |
| Processes.CorrectedStepKeepsWorkersTracked | utils/process_manager.py:138-139 | with line 139 corrected, if every live worker is in a pool before an iteration, it still is afterwards |
| Processes.TrackedShutdownStopsAll | utils/process_manager.py:126-131 | when every live worker is in a pool, the interrupt handler leaves no worker alive |
| Processes.ExitKeepsTracked | utils/process_manager.py:113 | a worker exiting on its own keeps every remaining live worker in a pool |
| Processes.AsWrittenOrphansGpuWorker | utils/process_manager.py:139 | as written, a live GPU worker drops out of the GPU pool at the next drain while still alive, and the interrupt handler no longer terminates it |
| Processes.CpuDispatchAllAlive | utils/process_manager.py:154-161 | with no GPU and every pooled worker alive, a job starts a CPU worker numbered by revision, the queue loses its head and nothing is terminated |
| Processes.DrainFixedDuplicatesCpuName | utils/process_manager.py:156 | with only line 139 corrected, a second live CPU worker gets the same name as the first |
| Processes.CorrectedNamesSecondCpuWorker | utils/process_manager.py:156 | with both lines corrected, the same state names the new worker `mimir-training_cpu-2`, distinct from the first |
| Processes.FinishedWorkerIsReaped | utils/process_manager.py:138-139 | a worker that exited on its own is terminated by the next drain and removed from its pool |
| Processes.JobQueue.Put | utils/process_manager.py:56 | a job is appended at the tail of the queue |
| Processes.JobQueue.Get | utils/process_manager.py:141 | the head is taken and the rest stays in order; an empty queue gives nothing and is unchanged |
| Processes.ProcessTable.IsAlive | utils/process_manager.py:113 | reports exactly whether the handle is alive |
| Processes.ProcessTable.Terminate | utils/process_manager.py:114 | the handle is no longer alive, and the call is recorded |
| Processes.ProcessTable.Start | utils/process_manager.py:147-151 | the new worker gets the next handle and is alive; no terminate call is recorded |
| Processes.ProcessManager.constructor | utils/process_manager.py:16-22 | the manager starts with an empty queue |
| Processes.ProcessManager.AddProcess | utils/process_manager.py:47-56 | the job is appended at the queue's tail and nothing else changes |
| Processes.ProcessManager.DrainPool | utils/process_manager.py:107-117 | the loop returns the live handles in order; `terminate` is called exactly on the dead ones, in pool order; an empty pool returns `[]` and terminates nothing |
| Processes.WorkLoop.constructor | utils/process_manager.py:133-134 | both pools start empty |
| Processes.WorkLoop.Iterate | utils/process_manager.py:136-161 | one pass of the loop body produces exactly the state and outcome of `Step` |
| Processes.WorkLoop.DrainPools | utils/process_manager.py:138-139 | the two reassignments produce exactly the drained state, reading the CPU pool for the second drain as written |
| Processes.WorkLoop.Dispatch | utils/process_manager.py:141-161 | after the drains, dequeuing, configuring, naming and starting a worker complete the `Step` |
| Processes.WorkLoop.WorkVili | utils/process_manager.py:119-163 | the loop reaches exactly the state of `Run`; it stops on an empty queue or an escaping exception |
| Processes.WorkLoop.EmptyProcessPool | utils/process_manager.py:123-125 | `terminate` is called on every handle, in order, alive or not |
| Processes.WorkLoop.SigHandler | utils/process_manager.py:126-131 | the process table afterwards is exactly that of `Shutdown` |
| Python.DictGet | utils/process_manager.py:146 | `d.get(k)` is the value under `k`, or `None` when the key is missing |
| Text.Lower | learners/fasttext_learner.py:51 | same length, and each ASCII capital is mapped to its small letter |
| Text.Upper | learners/fasttext_learner.py:264 | same length, and each ASCII small letter is mapped to its capital |
| Text.UpperOfLower | learners/fasttext_learner.py:264 | upper-casing forgets an earlier lower-casing |
| Text.StripSpec | learners/fasttext_learner.py:51 | the stripped string sits inside the input between an all-whitespace prefix and suffix, and neither end is whitespace |
| Text.StripIdempotent | learners/fasttext_learner.py:51 | stripping twice is stripping once |
| Text.RemoveAll | learners/fasttext_learner.py:264 | deleting the occurrences of a pattern never lengthens the string |
| Text.RemoveAllNoOccurrence | learners/fasttext_learner.py:264 | a string without the pattern is unchanged |
| Text.RemoveAllPrefix | learners/fasttext_learner.py:264 | a leading occurrence is deleted and the scan resumes after it |
| Text.Join | learners/fasttext_learner.py:94 | joining nothing gives `''`, and the result ends with the last item |
| Text.JoinSeparatorCount | learners/fasttext_learner.py:94 | n items free of the separator give exactly n - 1 separators |
| Text.SplitJoin | learners/fasttext_learner.py:94 | splitting a join of separator-free items on the separator gives the items back |
| Text.NatToString | utils/process_manager.py:148 | `str(n)` is a non-empty string of digits without a leading zero |
| Text.ParseNatToString | utils/process_manager.py:148 | reading `str(n)` back as a decimal gives `n` |
| Text.NatToStringInjective | utils/process_manager.py:148 | different numbers give different strings |
| Learners.PathJoin | learners/fasttext_learner.py:70 | `os.path.join(a, b)`: an absolute `b` replaces `a`; otherwise the result starts with `a` and ends with `b` |
| Learners.PathJoinDefault | learners/fasttext_learner.py:70 | a relative identifier lands directly inside `models/` |
| Learners.ModelZipPath | learners/fasttext_learner.py:70-82 | `_persist` returns `models/<id>.zip` for a relative identifier |
| Learners.SetDefaultsSpec | learners/fasttext_learner.py:143-164 | defaulting keeps every present key with its value, adds only the listed keys, and gives each missing key its default when the keys are distinct |
| Learners.SetDefaultsIdempotent | learners/fasttext_learner.py:143-164 | defaulting a defaulted dictionary changes nothing |
| FasttextFormat.Lines | learners/fasttext_learner.py:44-54 | one line per sample, in sample order |
| FasttextFormat.Parse | learners/fasttext_learner.py:29-56 | the loops build exactly the lines of the samples, in order, each being the intents' `__label__` tokens followed by the text (identical code at learners/fasttext.py:31-58) |
| FasttextFormat.LineWithoutIntents | learners/fasttext_learner.py:46-54 | a sample without intents is written as its bare text |
| FasttextFormat.LabelTokensLength | learners/fasttext_learner.py:49-51 | each intent adds at least `"__label__ "` to the line |
| FasttextFormat.LineSplit | learners/fasttext_learner.py:46-54 | when no cleaned label contains a space, splitting a line on spaces gives the `__label__` words, in intent order, followed by the words of the text |
| FasttextFormat.FileContentShape | learners/fasttext_learner.py:94 | n newline-free lines give exactly n - 1 newlines, no trailing newline, and split back into the lines |
| FasttextFormat.TextFile.Write | learners/fasttext_learner.py:97 | the data is appended to the file |
| FasttextFormat.TextFile.Close | learners/fasttext_learner.py:100 | the file is closed and its content kept |
| FasttextFormat.WriteFile | learners/fasttext_learner.py:84-100 | the file receives exactly the newline-join of the lines and is closed (identical code at learners/fasttext.py:85-101) |
| FasttextFormat.StripLower | learners/fasttext_learner.py:51 | lower-casing and stripping commute |
| FasttextFormat.FormatLabelUndoesLabelWord | learners/fasttext_learner.py:264 | `predict`'s cleaning undoes the class name written for an intent: it gives the stripped label in upper case, provided the label does not contain `__label__` |
| FasttextLearner.TrainArgsDefaults | learners/fasttext_learner.py:143-178 | training gets the file content and, for each of the six hyperparameters, the caller's value or else its default (5, 0.1, 100, 1, 5, `'softmax'`), renamed to `epoch`, `lr`, `dim`, `wordNgrams`, `ws` and `loss` |
| FasttextLearner.FitKeys | learners/fasttext_learner.py:143-164 | defaulting keeps every key already present with its value and adds no key but the six |
| FasttextLearner.FitDefaults | learners/fasttext_learner.py:143-164 | the six checks leave the caller's dictionary exactly defaulted |
| FasttextLearner.FasttextDefaultsInOrder | learners/fasttext_learner.py:143-164 | the defaults list is applied check by check, in the source's order |
| FasttextLearner.Ranked | learners/fasttext_learner.py:262-273 | as many intents as the shorter of labels and probabilities, paired by position, each label cleaned |
| FasttextLearner.RankedRecoversTrainedLabels | learners/fasttext_learner.py:264 | when every stripped label is one FastText word (no whitespace, no NUL), the classes trained from the intents come back from `predict` as the stripped labels in upper case, each with its probability; a label with inner whitespace is split by FastText and is not covered |
| FasttextLearner.Learner.constructor | learners/fasttext_learner.py:18-27 | a new learner has type `'fasttext'` and no model |
| FasttextLearner.Learner.Load | learners/fasttext_learner.py:102-114 | the model becomes the loaded one, or the loader's exception propagates and the model is kept |
| FasttextLearner.Learner.Fit | learners/fasttext_learner.py:116-192 | once the temporary file exists, the caller's dictionary is defaulted; training gets the written lines and the defaulted values; the model is kept once trained; the result is `models/<id>.zip` iff training and persisting both succeed, otherwise `None` |
| FasttextLearner.Learner.Evaluate | learners/fasttext_learner.py:194-236 | metrics are returned iff the file, the model and `test` all succeed, and are then `{'n_samples', 'precision', 'recall'}` from the test triple; otherwise `None` |
| FasttextLearner.Learner.Predict | learners/fasttext_learner.py:238-281 | one prediction per sample with the text unchanged and the ranked intents of the model's answer; without a model, a non-empty list raises `AttributeError` |
| Fasttext.Evaluate | learners/fasttext.py:158-162 | the stub returns `None` iff it is given no argument, and raises `TypeError` otherwise |
| Fasttext.EvaluateWithSamplesRaises | processors/tester_processor.py:96 | called with the samples, this `evaluate` raises `TypeError` |
| Fasttext.Learner.constructor | learners/fasttext.py:19-28 | a new learner has type `'fasttext'` and no model |
| Fasttext.Learner.Load | learners/fasttext.py:104-115 | the model becomes the loaded one, or the loader's exception propagates and the model is kept |
| Fasttext.Learner.Fit | learners/fasttext.py:117-156 | training gets the written lines with no hyperparameter; the model is kept once trained; the result is `models/<id>.zip` iff training and persisting succeed, otherwise `None` |
| Fasttext.Learner.Predict | learners/fasttext.py:164-198 | success iff every sample's answer has a first label and probability (or nothing is asked), giving one top prediction per sample with the text, the cleaned first label and the first probability; otherwise `AttributeError` without a model or `IndexError` |
| Spacy.ExampleOf | learners/spacy.py:50-58 | the example keeps the text and turns each entity into `(start, end, label)`, count and order preserved |
| Spacy.Examples | learners/spacy.py:44-60 | one example per sample, in order |
| Spacy.Parse | learners/spacy.py:33-60 | the nested loops build exactly the examples of the samples |
| Spacy.EntityLabels | learners/spacy.py:130-132 | the labels of an example's entities, in order |
| Spacy.LabelsOfMembers | learners/spacy.py:128-132 | a label is added iff some entity of some example carries it |
| Spacy.NerPipe.AddLabel | learners/spacy.py:132 | a label already known is not added again |
| Spacy.AddLabels | learners/spacy.py:128-132 | afterwards the pipe's labels are exactly the labels of the training data, each once |
| Spacy.SpacyDefaultsInOrder | learners/spacy.py:136-149 | the defaults list is applied check by check, in the source's order |
| Spacy.SpacyDefaults | learners/spacy.py:136-149 | every present key keeps its value; only the four keys are added; each missing one gets 100, 0.5, 0.001 or 32 |
| Spacy.FitDefaults | learners/spacy.py:136-149 | the four checks leave the caller's dictionary exactly defaulted |
| Spacy.RangeLength | learners/spacy.py:160 | `range(v)` runs `max(v, 0)` times for an integer, 0 or 1 times for a bool, and raises `TypeError` otherwise |
| Spacy.RoundsPrefix | learners/spacy.py:160-182 | a training run that succeeds succeeded in every earlier round |
| Spacy.RoundsFailFrom | learners/spacy.py:160-182 | once a round raises, no later round runs and the run fails |
| Spacy.EmptyDataFails | learners/spacy.py:167-182 | without training data, any positive number of rounds fails (`loss['ner']` is never set) |
| Spacy.Train | learners/spacy.py:154-182 | the loop runs `n_iterations` rounds, stopping at the first failure |
| Spacy.EntitiesOf | learners/spacy.py:266-273 | one entity per span, in order, carrying its text, offsets and label |
| Spacy.Learner.constructor | learners/spacy.py:22-31 | a new learner has type `'spacy'` and no model |
| Spacy.Learner.Load | learners/spacy.py:87-98 | the model becomes the loaded one, or the loader's exception propagates and the model is kept |
| Spacy.Learner.Fit | learners/spacy.py:100-196 | a failing `spacy.blank` changes nothing and gives `None`; otherwise the `ner` labels are the data's labels, each once, and the caller's dictionary is defaulted; a failing `begin_training` then leaves the blank pipeline and gives `None`; otherwise the model is the trained pipeline and the result is `models/<id>.zip` iff every round and persisting succeed |
| Spacy.Learner.Evaluate | learners/spacy.py:198-239 | without a model, any example makes it return `None`; otherwise the result is the scorer's over the parsed examples |
| Spacy.Learner.Predict | learners/spacy.py:241-281 | one prediction per sample with the text unchanged and one entity per span, in order; without a model, a non-empty list raises `TypeError` |
| Tasks.SelectLearner | processors/trainer_processor.py:56-63 | `'spacy'` selects spaCy, `'fasttext'` selects FastText, and any other value selects nothing |
| Tasks.Select | processors/trainer_processor.py:56-63 | the two comparisons in order give that choice |
| Tasks.SetCallbackItem | processors/trainer_processor.py:69 | `task['callback'][k] = v` raises `KeyError` without a callback, raises `TypeError` on a non-dictionary, and succeeds on a dictionary |
| Tasks.SetCallbackItemEffect | processors/trainer_processor.py:69 | a successful write changes that one callback entry and nothing else |
| Tasks.Lookup | processors/trainer_processor.py:66 | `task[k]` is the value or `KeyError(k)` |
| Tasks.FinishSpec | processors/trainer_processor.py:69-83 | with a callback, `end_time` and then `status` are written, `status` is `'success'` iff a model was trained, and it raises `RuntimeError` iff none was; without one nothing changes and the write raises; no other key changes |
| Tasks.SetCallback | processors/trainer_processor.py:69 | the dictionary is written exactly as `SetCallbackItem` says, or is unchanged when that raises |
| Tasks.FinishTask | processors/trainer_processor.py:69-83 | the writes and the outcome are exactly `Finish` |
| Tasks.Logged | processors/trainer_processor.py:27-39 | an exception is logged iff the job raised, and it is that exception |
| TrainerProcessor.InvokeConsume | processors/trainer_processor.py:41-83 | the task and the outcome are exactly those of `Train` |
| TrainerProcessor.Consume | processors/trainer_processor.py:14-39 | the job's writes happen and whatever it raised is logged, never propagated |
| TrainerProcessor.UnknownTypeLeavesTask | processors/trainer_processor.py:53-66 | an unknown type raises `UnboundLocalError` and leaves the task unchanged |
| TrainerProcessor.AfterFit | processors/trainer_processor.py:66 | calling `fit` can change only `task['hyperparams']`, which becomes the dictionary as the learner left it; a task that never reaches `fit` is unchanged |
| TrainerProcessor.TrainChangesOnlyStatus | processors/trainer_processor.py:66-83 | beside what the learner does to `hyperparams`, only `end_time` and `status` of the callback ever change |
| TrainerProcessor.TrainOutcome | processors/trainer_processor.py:66-83 | for a well-formed task, `hyperparams` is what the learner left, `end_time` is set on both outcomes, `status` is `'success'` iff `fit` returned a path, and the job raises `RuntimeError` iff it did not |
| LearnerProcessor.InvokeConsume | processors/learner_processor.py:39-69 | the task and the outcome are exactly those of `LearnJob` |
| LearnerProcessor.Consume | processors/learner_processor.py:12-37 | the job's writes happen and whatever it raised is logged, never propagated |
| LearnerProcessor.ShippedLearn | utils/spacy.py:6-29 | called with other than two arguments it raises `TypeError`; with two it returns what `spacy.blank('pt')` gives |
| LearnerProcessor.LearnOutcome | processors/learner_processor.py:55-69 | once `learn` returns, only `end_time` and `status` change, `status` is `'success'` iff the result is not `None`, and the job raises otherwise |
| LearnerProcessor.LearnRaisesLeavesTask | processors/learner_processor.py:52 | a `learn` that raises leaves the task unchanged and propagates its exception |
| LearnerProcessor.ShippedNeverWrites | processors/learner_processor.py:52 | with the shipped two-parameter `learn`, every job raises and the task is never modified |
| TesterProcessor.UnzipDestinationIsModelPath | utils/file.py:64-72 | the directory `unzip_file` returns is the model path that was looked for |
| TesterProcessor.RecordSpec | processors/tester_processor.py:99-105 | with a callback, `metrics`, then `end_time`, then `status = 'success'` are written and the job returns; no other key changes |
| TesterProcessor.InvokeConsume | processors/tester_processor.py:43-90 | the task, the outcome, the archive unzipped and the path loaded are exactly those of `Test` |
| TesterProcessor.LoadAndEvaluate | processors/tester_processor.py:93-105 | loading, evaluating and recording give exactly `Loaded` |
| TesterProcessor.Consume | processors/tester_processor.py:16-41 | the job's writes happen and whatever it raised is logged, never propagated |
| TesterProcessor.TestChangesOnly | processors/tester_processor.py:68-105 | only `metrics`, `end_time` and `status` of the callback ever change |
| TesterProcessor.LoadedChangesOnly | processors/tester_processor.py:93-105 | after loading, only those three entries change, and a FastText learner always raises without writing |
| TesterProcessor.TestPaths | processors/tester_processor.py:68-93 | the model is looked for at `models/` joined with the id; unzipping is tried, on that path plus `.zip`, iff the path does not exist; loading is from that same path |
| TesterProcessor.UnzipFailureRecordsError | processors/tester_processor.py:71-90 | a model neither found nor unzipped sets `status = 'error'` and nothing else, and raises `RuntimeError('Model was not found.')`, whatever the type |
| TesterProcessor.SpacySuccess | processors/tester_processor.py:96-105 | a spaCy model that is found and loaded gives `metrics` = `evaluate`'s result (even `None`), then `end_time`, then `status = 'success'` |
| TesterProcessor.FasttextNeverRecords | processors/tester_processor.py:96 | with `'fasttext'` the job always raises, and at most `status` changes |
| TesterProcessor.UnknownTypeRaises | processors/tester_processor.py:55-93 | an unknown type always raises; only `status` can change, and only when the model was missing; otherwise the task is unchanged |

## Left out

- Processes.WorkLoop.WorkVili: the `while True` loop is fed a finite sequence of GPU query outcomes. It ends when they run out, and a blocking `get` on an empty queue ends the run. Waiting for a later `add_process` is not modelled.
- Processes.ProcessManager.constructor: starting the background `Process`, `handle_process` and the Tornado `IOLoop` are not modelled.
- Concurrency is not modelled. This covers `multiprocessing` processes and queue thread-safety, `signal.signal`, the `sys.exit()` ending `sig_handler`, and workers exiting at arbitrary times. Exiting is modelled as a separate `ProcessTable.Exit` step.
- Processes.GetDeviceConfig: GPUtil (`getGPUs`, `getFirstAvailable` with its attempts and interval) is an oracle. Its value is a `GpuQuery`: an exception, or the id list returned. The model does not pass `GpuThresholds` (-9.0 and -99.0) to it. GPUtil's availability filter keeps only devices whose load and memory use are below those bounds. No device's can be negative, so as shipped the GPU branch is very likely never taken. That filter belongs to GPUtil, not to this repository, so the model leaves the branch open.
- Job targets are not instantiated. `job["target"]()` is represented by a `ProcessorKind`, and the worker records which processor's `consume` it runs.
- Logging and `print` are left out.
- Python floats are Dafny `real`: the thresholds, `lr`, `dropout`, probabilities and precision values. Double-precision rounding is not modelled.
- Text.Lower, Text.Upper and Text.Strip cover ASCII only. Unicode case mapping and whitespace are not modelled.
- FastText and spaCy are oracles passed as function parameters: training, testing, predicting, `spacy.blank`, `spacy.load`, `fasttext.load_model`, `model(text)`, `Scorer` and `GoldParse`. A `None` result stands for the library raising.
- Spacy.Learner.Fit: `begin_training` is the `beginOk` flag, called once before the loop. The optimizer it returns, setting `optimizer.alpha`, `random.shuffle`, `minibatch` with `compounding`, `dropout` and `batch_size` all belong to the `round` oracle, one call per iteration. The model does not check that the round receives the defaulted values.
- Spacy.Learner.Evaluate: the scorer's loop over the examples is one oracle call, `score`.
- `_persist` is a `persistOk` flag. It covers the temporary directory, `save_model`/`to_disk` and `utils.file.zip_file`. As shipped, `utils/constants.py` defines no `DEFAULT_FASTTEXT_MODEL`, so for both FastText learners `_persist` and `load` raise `AttributeError`. The model lets that be chosen by the caller rather than fixing it.
- The temporary file system is reduced to a `tempFileOk` flag, and `os.path.exists` and `unzip_file` to oracles. The rest of `utils/file.py` is not part of this model.
- Samples are typed (`Sample`, `Intent`, `Entity`). A request sample missing `text`, `intents`, `entities` or `label` raises `KeyError` in the source, which the model does not represent.
- TrainerProcessor.Train: `fit` is an oracle over the raw task values and is not connected to the learner models. It returns the model path and `task['hyperparams']` as the learner leaves it, and the task keeps that dictionary. That this is the learner's defaulting (`SetDefaults`) is proved only in the learner modules, not here.
- TesterProcessor.Test: spaCy's `load` and `evaluate` are oracles over the raw task values.
- `datetime.utcnow().isoformat()` is an opaque timestamp string, `now`.
- Identifiers from `uuid.uuid4()` are passed to the learners' constructors.
- `learners/base.py`, which `learners/fasttext.py` and `learners/spacy.py` import, is not part of this model. `learners/base_learner.py` contributes only the fields `id`, `type` and `model = None`. Its other methods only raise `NotImplementedError`.
- The HTTP handlers, the server bootstrap and the configuration reading are left out. `DEFAULT_PATH` is the constant `"models/"`.

## Findings

| source | as written | input that shows it | evidently intended | confidence | as-written member | corrected member |
|---|---|---|---|---|---|---|
| utils/process_manager.py:139 | the GPU pool is rebuilt by draining the CPU pool, so the old GPU pool is discarded | empty queue, empty CPU pool, one live GPU worker (handle 0): after one iteration the GPU pool is empty while worker 0 still runs, and the interrupt handler no longer terminates it | drain the GPU pool into the GPU pool, so every live worker stays in a pool and the handler stops all of them | high (not executed) | Processes.AsWrittenOrphansGpuWorker | Processes.CorrectedStepKeepsWorkersTracked |
| utils/process_manager.py:156 | a CPU worker is numbered from the length of the GPU pool | with line 139 corrected: one live CPU worker named `mimir-training_cpu-1`, an empty GPU pool, no GPU found and one job queued: the new CPU worker gets the same name `mimir-training_cpu-1` | number CPU workers from the CPU pool, naming the second one `mimir-training_cpu-2` | high (not executed) | Processes.DrainFixedDuplicatesCpuName | Processes.CorrectedNamesSecondCpuWorker |

The loop is parameterised by a `Revision`. `AsWritten` is the code as it
stands, `DrainFixed` corrects line 139 only, and `Corrected` corrects both
lines. `WorkLoop`, `Step`, `Run` and the FIFO lemmas hold for every
revision. `Processes.CorrectedNamesCountOwnPool` and
`Processes.TrackedShutdownStopsAll` complete the two corrected properties.
As written, line 139 hides line 156, because the GPU pool equals the
drained CPU pool (`Processes.AsWrittenNamesCountCpuPool`).
