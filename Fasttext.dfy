/** learners/fasttext.py: the older FastText learner the processors import.
    It trains with FastText's own defaults, has an `evaluate` stub without a
    samples parameter and predicts only the top label. Its `_parse` and
    `_write_file` are the ones in FasttextFormat. */
module Fasttext {
  import opened Wrappers
  import opened Python
  import opened Learners
  import opened FasttextFormat

  /** A top-1 prediction: `{'text', 'intent', 'probability'}`. */
  datatype TopPrediction = TopPrediction(text: string, intent: string, probability: real)

  /** The positional arguments `evaluate(self)` accepts besides `self`. */
  const EVALUATE_ARITY: nat := 0

  /** `evaluate`: a stub taking no arguments but `self`, returning `None`;
      called with any argument it raises `TypeError`. */
  function Evaluate(args: seq<Value>): (r: Result<Value, Error>)
    ensures r.Success? <==> |args| == EVALUATE_ARITY
    ensures r.Success? ==> r.value == Value.None
    ensures r.Failure? ==> r.error.TypeError?
  {
    if |args| == EVALUATE_ARITY then Success(Value.None)
    else Failure(TypeError("evaluate() takes 1 positional argument"))
  }

  /** The tester calls `evaluate(task['samples'])`: this learner always
      raises there. */
  lemma EvaluateWithSamplesRaises(samples: Value)
    ensures Evaluate([samples]).Failure? && Evaluate([samples]).error.TypeError?
  {
  }

  /** Whether the model's answer for a text has a first label and a first
      probability. */
  predicate HasTop(res: (seq<string>, seq<real>)) {
    |res.0| > 0 && |res.1| > 0
  }

  class Learner {
    const id: string
    const kind: string
    var model: Option<FasttextModel>

    constructor (id: string)
      ensures this.id == id && kind == "fasttext" && model == Option.None
    {
      this.id := id;
      kind := "fasttext";
      model := Option.None;
    }

    /** `load`: as in the newer learner, the model read from `model_path`. */
    method Load(modelPath: string, load: string -> Option<FasttextModel>) returns (r: Outcome<Error>)
      modifies this
      ensures r == (if load(modelPath).Some? then Pass else Fail(ForeignError("load_model")))
      ensures model == (if load(modelPath).Some? then load(modelPath) else old(model))
    {
      var m := load(modelPath);
      if m.None? {
        return Fail(ForeignError("load_model"));
      }
      model := m;
      r := Pass;
    }

    /** `fit`: parse, write the training file, train on it with FastText's
        own settings and persist; `None` when anything raises. The
        hyperparameters are accepted and never read. */
    method Fit(language: string, samples: seq<Sample>, hyperparams: map<string, Value>, tempFileOk: bool,
               train: string -> Option<FasttextModel>, persistOk: bool)
      returns (modelPath: Option<string>)
      modifies this
      ensures var trained := train(FileContent(Lines(samples)));
        && model == (if tempFileOk && trained.Some? then trained else old(model))
        && modelPath == (if tempFileOk && trained.Some? && persistOk then Some(ModelZipPath(id)) else Option.None)
    {
      var trainData := Parse(samples);
      if !tempFileOk {
        return Option.None;
      }
      var trainFile := new TextFile();
      WriteFile(trainData, trainFile);
      assert trainFile.content == FileContent(Lines(samples));
      var trained := train(trainFile.content);
      if trained.None? {
        return Option.None;
      }
      model := trained;
      if !persistOk {
        return Option.None;
      }
      modelPath := Some(ModelZipPath(id));
    }

    /** `predict`: for each sample, its text with the model's first label
        (cleaned as in the newer learner) and first probability. A missing
        model raises `AttributeError`, an empty answer `IndexError`, at the
        first sample where it happens. */
    method Predict(samples: seq<Sample>, predict: (FasttextModel, string) -> (seq<string>, seq<real>))
      returns (r: Result<seq<TopPrediction>, Error>)
      ensures r.Success? <==> samples == [] || (model.Some? && forall i :: 0 <= i < |samples| ==> HasTop(predict(model.value, samples[i].text)))
      ensures r.Failure? ==> r.error == (if model.None? then AttributeError("predict") else IndexError)
      ensures r.Success? ==> |r.value| == |samples|
      ensures r.Success? ==> forall i :: 0 <= i < |samples| ==>
        var res := predict(model.value, samples[i].text);
        r.value[i] == TopPrediction(samples[i].text, FormatLabel(res.0[0]), res.1[0])
    {
      var preds: seq<TopPrediction> := [];
      for i := 0 to |samples|
        invariant model.Some? || i == 0
        invariant |preds| == i
        invariant forall t :: 0 <= t < i ==> HasTop(predict(model.value, samples[t].text))
        invariant forall t :: 0 <= t < i ==>
          var res := predict(model.value, samples[t].text);
          preds[t] == TopPrediction(samples[t].text, FormatLabel(res.0[0]), res.1[0])
      {
        var s := samples[i];
        if model.None? {
          return Failure(AttributeError("predict"));
        }
        var res := predict(model.value, s.text);
        if |res.0| == 0 || |res.1| == 0 {
          return Failure(IndexError);
        }
        var intent := FormatLabel(res.0[0]);
        var prob := res.1[0];
        preds := preds + [TopPrediction(s.text, intent, prob)];
      }
      r := Success(preds);
    }
  }
}
