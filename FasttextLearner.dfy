/** learners/fasttext_learner.py: the FastText intent classifier with
    hyperparameter defaults, metrics from `model.test`, and predictions over
    every label of the model. FastText itself (training, testing,
    predicting), the temporary file system and `_persist`'s archive writing
    are oracles passed in by the caller. */
module FasttextLearner {
  import opened Wrappers
  import opened Python
  import opened Text
  import opened Learners
  import opened FasttextFormat

  /** The arguments `fit` passes to `fasttext.train_supervised`: the training
      file's content and the six hyperparameters. */
  datatype TrainArgs = TrainArgs(input: string, lr: Value, dim: Value, ws: Value,
                                 epoch: Value, wordNgrams: Value, loss: Value)

  /** The defaults `fit` fills in, in the order it checks them. */
  const FASTTEXT_DEFAULTS: Defaults := [
    ("n_iterations", Int(5)), ("lr", Real(0.1)), ("dim", Int(100)),
    ("n_grams", Int(1)), ("window_size", Int(5)), ("loss", Str("softmax"))]

  /** The hyperparameters `fit` trains with, after defaulting `h`. */
  function TrainArgsFor(content: string, h: map<string, Value>): TrainArgs {
    var d := SetDefaults(h, FASTTEXT_DEFAULTS);
    TrainArgs(content, DictGet(d, "lr"), DictGet(d, "dim"), DictGet(d, "window_size"),
              DictGet(d, "n_iterations"), DictGet(d, "n_grams"), DictGet(d, "loss"))
  }

  /** Training uses the caller's value for every hyperparameter it gives and
      the default for every other one; the key names map `window_size` to
      `ws`, `n_iterations` to `epoch` and `n_grams` to `wordNgrams`. */
  lemma TrainArgsDefaults(content: string, h: map<string, Value>)
    ensures var a := TrainArgsFor(content, h);
      && a.input == content
      && a.epoch == (if "n_iterations" in h then h["n_iterations"] else Int(5))
      && a.lr == (if "lr" in h then h["lr"] else Real(0.1))
      && a.dim == (if "dim" in h then h["dim"] else Int(100))
      && a.wordNgrams == (if "n_grams" in h then h["n_grams"] else Int(1))
      && a.ws == (if "window_size" in h then h["window_size"] else Int(5))
      && a.loss == (if "loss" in h then h["loss"] else Str("softmax"))
  {
    SetDefaultsSpec(h, FASTTEXT_DEFAULTS);
    var ds := FASTTEXT_DEFAULTS;
    assert DistinctKeys(ds);
    assert ds[0].0 == "n_iterations" && ds[1].0 == "lr" && ds[2].0 == "dim";
    assert ds[3].0 == "n_grams" && ds[4].0 == "window_size" && ds[5].0 == "loss";
  }

  /** `fit` leaves every other key as it was and adds no key but the six. */
  lemma FitKeys(h: map<string, Value>)
    ensures forall k :: k in h ==> k in SetDefaults(h, FASTTEXT_DEFAULTS) && SetDefaults(h, FASTTEXT_DEFAULTS)[k] == h[k]
    ensures forall k :: k in SetDefaults(h, FASTTEXT_DEFAULTS) ==>
      k in h || k in {"n_iterations", "lr", "dim", "n_grams", "window_size", "loss"}
  {
    SetDefaultsSpec(h, FASTTEXT_DEFAULTS);
    forall k | k in SetDefaults(h, FASTTEXT_DEFAULTS) && k !in h
      ensures k in {"n_iterations", "lr", "dim", "n_grams", "window_size", "loss"}
    {
      var i :| 0 <= i < |FASTTEXT_DEFAULTS| && FASTTEXT_DEFAULTS[i].0 == k;
    }
  }

  /** `fit`'s six `if key not in hyperparams` checks, in the caller's
      dictionary. */
  method FitDefaults(hyperparams: PyDict)
    modifies hyperparams
    ensures hyperparams.entries == SetDefaults(old(hyperparams.entries), FASTTEXT_DEFAULTS)
  {
    FasttextDefaultsInOrder(hyperparams.entries);
    if "n_iterations" !in hyperparams.entries {
      hyperparams.SetItem("n_iterations", Int(5));
    }
    if "lr" !in hyperparams.entries {
      hyperparams.SetItem("lr", Real(0.1));
    }
    if "dim" !in hyperparams.entries {
      hyperparams.SetItem("dim", Int(100));
    }
    if "n_grams" !in hyperparams.entries {
      hyperparams.SetItem("n_grams", Int(1));
    }
    if "window_size" !in hyperparams.entries {
      hyperparams.SetItem("window_size", Int(5));
    }
    if "loss" !in hyperparams.entries {
      hyperparams.SetItem("loss", Str("softmax"));
    }
  }

  /** The defaults list applied check by check. */
  lemma FasttextDefaultsInOrder(h: map<string, Value>)
    ensures SetDefaults(h, FASTTEXT_DEFAULTS)
      == SetDefault(SetDefault(SetDefault(SetDefault(SetDefault(SetDefault(h,
           ("n_iterations", Int(5))), ("lr", Real(0.1))), ("dim", Int(100))),
           ("n_grams", Int(1))), ("window_size", Int(5))), ("loss", Str("softmax")))
  {
    var ds := FASTTEXT_DEFAULTS;
    assert ds[..0] == [];
    SetDefaultsSnoc(h, ds, 0);
    var m1 := SetDefaults(h, ds[..1]);
    SetDefaultsSnoc(h, ds, 1);
    var m2 := SetDefaults(h, ds[..2]);
    assert m2 == SetDefault(m1, ds[1]);
    SetDefaultsSnoc(h, ds, 2);
    var m3 := SetDefaults(h, ds[..3]);
    assert m3 == SetDefault(m2, ds[2]);
    SetDefaultsSnoc(h, ds, 3);
    var m4 := SetDefaults(h, ds[..4]);
    assert m4 == SetDefault(m3, ds[3]);
    SetDefaultsSnoc(h, ds, 4);
    var m5 := SetDefaults(h, ds[..5]);
    assert m5 == SetDefault(m4, ds[4]);
    SetDefaultsSnoc(h, ds, 5);
    assert ds[..6] == ds;
  }

  /** One entry of a prediction: a cleaned label and its probability. */
  datatype ScoredIntent = ScoredIntent(name: string, probability: real)

  /** A prediction: the sample's text and every predicted intent. */
  datatype Prediction = Prediction(text: string, intents: seq<ScoredIntent>)

  function Min(a: nat, b: nat): nat {
    if a <= b then a else b
  }

  /** `zip(labels, probs)` with each label cleaned: as many entries as the
      shorter list, paired by position. */
  function Ranked(labels: seq<string>, probs: seq<real>): (r: seq<ScoredIntent>)
    ensures |r| == Min(|labels|, |probs|)
    ensures forall j :: 0 <= j < |r| ==> r[j] == ScoredIntent(FormatLabel(labels[j]), probs[j])
  {
    seq(Min(|labels|, |probs|), j requires 0 <= j < Min(|labels|, |probs|) =>
      ScoredIntent(FormatLabel(labels[j]), probs[j]))
  }

  class Learner {
    const id: string
    const kind: string
    var model: Option<FasttextModel>

    /** The identifier is the caller's (a fresh UUID in the source). */
    constructor (id: string)
      ensures this.id == id && kind == "fasttext" && model == Option.None
    {
      this.id := id;
      kind := "fasttext";
      model := Option.None;
    }

    /** `load`: the model read from `model_path` (`load` is
        `fasttext.load_model` on the model file inside it; `None`: it
        raised, and the exception propagates). */
    method Load(modelPath: string, load: string -> Option<FasttextModel>) returns (r: Outcome<Error>)
      modifies this
      ensures r == (if load(modelPath).Some? then Pass else Fail(ForeignError("load_model")))
      ensures model == (if load(modelPath).Some? then load(modelPath) else old(model))
    {
      var m := load(modelPath);
      if m.None? {
        return Fail(ForeignError("load_model"));
      }
      model := m;
      r := Pass;
    }

    /** `fit`: parse, write the training file, fill in defaults in the
        caller's dictionary, train, persist. Any exception makes it return
        `None`; the model is kept once trained, even if persisting fails.
        `tempFileOk` says whether the temporary file could be created,
        `train` is `train_supervised` (`None`: it raised) and `persistOk`
        whether `_persist` succeeded. */
    method Fit(language: string, samples: seq<Sample>, hyperparams: PyDict, tempFileOk: bool,
               train: TrainArgs -> Option<FasttextModel>, persistOk: bool)
      returns (modelPath: Option<string>)
      modifies this, hyperparams
      ensures hyperparams.entries
        == if tempFileOk then SetDefaults(old(hyperparams.entries), FASTTEXT_DEFAULTS) else old(hyperparams.entries)
      ensures var trained := train(TrainArgsFor(FileContent(Lines(samples)), old(hyperparams.entries)));
        && model == (if tempFileOk && trained.Some? then trained else old(model))
        && modelPath == (if tempFileOk && trained.Some? && persistOk then Some(ModelZipPath(id)) else Option.None)
    {
      var trainData := Parse(samples);
      if !tempFileOk {
        return Option.None;
      }
      var trainFile := new TextFile();
      WriteFile(trainData, trainFile);
      FitDefaults(hyperparams);
      assert trainFile.content == FileContent(Lines(samples));
      var h := hyperparams.entries;
      var epochs := DictGet(h, "n_iterations");
      var lr := DictGet(h, "lr");
      var dim := DictGet(h, "dim");
      var nGrams := DictGet(h, "n_grams");
      var ws := DictGet(h, "window_size");
      var loss := DictGet(h, "loss");
      var args := TrainArgs(trainFile.content, lr, dim, ws, epochs, nGrams, loss);
      assert args == TrainArgsFor(FileContent(Lines(samples)), old(hyperparams.entries));
      var trained := train(args);
      if trained.None? {
        return Option.None;
      }
      model := trained;
      if !persistOk {
        return Option.None;
      }
      modelPath := Some(ModelZipPath(id));
    }

    /** `evaluate`: write the test file and read `(n, precision, recall)`
        from `model.test`; `None` when anything raises, including a missing
        model. `test` is `model.test` (`None`: it raised). */
    method Evaluate(samples: seq<Sample>, tempFileOk: bool,
                    test: (FasttextModel, string) -> Option<(Value, Value, Value)>)
      returns (metrics: Option<map<string, Value>>)
      ensures metrics.Some? <==> tempFileOk && model.Some? && test(model.value, FileContent(Lines(samples))).Some?
      ensures metrics.Some? ==>
        var m := test(model.value, FileContent(Lines(samples))).value;
        metrics.value == map["n_samples" := m.0, "precision" := m.1, "recall" := m.2]
    {
      var testData := Parse(samples);
      if !tempFileOk {
        return Option.None;
      }
      var testFile := new TextFile();
      WriteFile(testData, testFile);
      assert testFile.content == FileContent(Lines(samples));
      if model.None? {
        return Option.None;
      }
      var m := test(model.value, testFile.content);
      if m.None? {
        return Option.None;
      }
      metrics := Some(map["n_samples" := m.value.0, "precision" := m.value.1, "recall" := m.value.2]);
    }

    /** `predict`: one prediction per sample, keeping its text, with every
        label the model returns (`k=-1`) cleaned and paired with its
        probability. `predict` is `model.predict` (labels, probabilities).
        Without a model the first sample raises `AttributeError`. */
    method Predict(samples: seq<Sample>, predict: (FasttextModel, string) -> (seq<string>, seq<real>))
      returns (r: Result<seq<Prediction>, Error>)
      ensures model.None? ==>
        if samples == [] then r == Success([]) else r == Failure(AttributeError("predict"))
      ensures model.Some? ==> r.Success? && |r.value| == |samples|
      ensures model.Some? ==> forall i :: 0 <= i < |samples| ==>
        var res := predict(model.value, samples[i].text);
        r.value[i] == Prediction(samples[i].text, Ranked(res.0, res.1))
    {
      var preds: seq<Prediction> := [];
      for i := 0 to |samples|
        invariant model.Some? || i == 0
        invariant |preds| == i
        invariant forall t :: 0 <= t < i ==>
          var res := predict(model.value, samples[t].text);
          preds[t] == Prediction(samples[t].text, Ranked(res.0, res.1))
      {
        var s := samples[i];
        if model.None? {
          return Failure(AttributeError("predict"));
        }
        var res := predict(model.value, s.text);
        var intents: seq<ScoredIntent> := [];
        var n := Min(|res.0|, |res.1|);
        for j := 0 to n
          invariant |intents| == j
          invariant forall t :: 0 <= t < j ==> intents[t] == ScoredIntent(FormatLabel(res.0[t]), res.1[t])
        {
          var intent := Upper(RemoveAll(res.0[j], LABEL_PREFIX));
          var prob := res.1[j];
          intents := intents + [ScoredIntent(intent, prob)];
        }
        assert intents == Ranked(res.0, res.1);
        preds := preds + [Prediction(s.text, intents)];
      }
      r := Success(preds);
    }
  }

  /** The classes FastText learns from intents whose stripped labels are one
      word each are their `LabelWord`s, and they come back from `predict` as
      the stripped labels in upper case. A label with inner whitespace is not
      covered: "New York" is written as `__label__new york`, which FastText
      reads as the class `__label__new` followed by the word `york`. */
  lemma RankedRecoversTrainedLabels(names: seq<string>, probs: seq<real>)
    requires |probs| >= |names|
    requires forall j :: 0 <= j < |names| ==> OneWord(Strip(Lower(names[j])))
    requires forall j :: 0 <= j < |names| ==> !Contains(Strip(Lower(names[j])), LABEL_PREFIX)
    ensures var r := Ranked(seq(|names|, j requires 0 <= j < |names| => LabelWord(names[j])), probs);
      |r| == |names| && forall j :: 0 <= j < |names| ==> r[j].name == Upper(Strip(names[j])) && r[j].probability == probs[j]
  {
    forall j | 0 <= j < |names| ensures FormatLabel(LabelWord(names[j])) == Upper(Strip(names[j])) {
      FormatLabelUndoesLabelWord(names[j]);
    }
  }
}
