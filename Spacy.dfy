/** learners/spacy.py: the spaCy named-entity learner. spaCy itself (the
    blank pipeline, one training round of shuffling, minibatching and
    updating, scoring, running the model on a text) and `_persist`'s archive
    writing are oracles passed in by the caller. */
module Spacy {
  import opened Wrappers
  import opened Python
  import opened Learners

  /** An entity of the request JSON: `{'start', 'end', 'label'}`. */
  datatype Entity = Entity(start: int, end: int, tag: string)

  /** A sample of the request JSON: `{'text', 'entities'}`. */
  datatype Sample = Sample(text: string, entities: seq<Entity>)

  /** spaCy's training format: `(text, {'entities': [(start, end, label)]})`. */
  datatype Example = Example(text: string, entities: seq<(int, int, string)>)

  /** A spaCy pipeline, opaque to the learner. */
  datatype SpacyModel = SpacyModel(handle: nat)

  /** A span the model finds in a text (`e.text`, `e.start_char`,
      `e.end_char`, `e.label_`). */
  datatype Span = Span(text: string, startChar: int, endChar: int, tag: string)

  /** A predicted entity: `{'value', 'start', 'end', 'label'}`. */
  datatype PredictedEntity = PredictedEntity(value: string, start: int, end: int, tag: string)

  /** A prediction: the sample's text and its entities. */
  datatype Prediction = Prediction(text: string, entities: seq<PredictedEntity>)

  function AsTuple(e: Entity): (int, int, string) {
    (e.start, e.end, e.tag)
  }

  /** The example one sample becomes: same text, one tuple per entity, in order. */
  function ExampleOf(s: Sample): (r: Example)
    ensures r.text == s.text && |r.entities| == |s.entities|
    ensures forall j :: 0 <= j < |s.entities| ==> r.entities[j] == AsTuple(s.entities[j])
  {
    Example(s.text, seq(|s.entities|, j requires 0 <= j < |s.entities| => AsTuple(s.entities[j])))
  }

  function Examples(samples: seq<Sample>): (r: seq<Example>)
    ensures |r| == |samples|
    ensures forall i :: 0 <= i < |samples| ==> r[i] == ExampleOf(samples[i])
  {
    seq(|samples|, i requires 0 <= i < |samples| => ExampleOf(samples[i]))
  }

  /** `_parse`: an example per sample, in sample order. */
  method Parse(samples: seq<Sample>) returns (data: seq<Example>)
    ensures data == Examples(samples)
  {
    data := [];
    for i := 0 to |samples|
      invariant |data| == i
      invariant forall t :: 0 <= t < i ==> data[t] == ExampleOf(samples[t])
    {
      var s := samples[i];
      var entities: seq<(int, int, string)> := [];
      for j := 0 to |s.entities|
        invariant |entities| == j
        invariant forall t :: 0 <= t < j ==> entities[t] == AsTuple(s.entities[t])
      {
        var ent := s.entities[j];
        entities := entities + [(ent.start, ent.end, ent.tag)];
      }
      data := data + [Example(s.text, entities)];
    }
  }

  /** The labels of a list of examples, in order, repeats included: the
      arguments of the `add_label` calls. */
  function LabelsOf(data: seq<Example>): seq<string>
    decreases |data|
  {
    if data == [] then []
    else LabelsOf(data[..|data| - 1]) + EntityLabels(data[|data| - 1].entities)
  }

  function EntityLabels(ents: seq<(int, int, string)>): (r: seq<string>)
    ensures |r| == |ents| && forall j :: 0 <= j < |ents| ==> r[j] == ents[j].2
  {
    seq(|ents|, j requires 0 <= j < |ents| => ents[j].2)
  }

  /** A label occurs in the training data iff some entity of some example
      carries it. */
  lemma {:induction false} LabelsOfMembers(data: seq<Example>, l: string)
    ensures l in LabelsOf(data) <==>
      exists i, j :: 0 <= i < |data| && 0 <= j < |data[i].entities| && data[i].entities[j].2 == l
    decreases |data|
  {
    if data != [] {
      var init := data[..|data| - 1];
      var last := data[|data| - 1];
      LabelsOfMembers(init, l);
      if l in LabelsOf(data) {
        if l in LabelsOf(init) {
          var i, j :| 0 <= i < |init| && 0 <= j < |init[i].entities| && init[i].entities[j].2 == l;
          assert data[i] == init[i];
        } else {
          var j :| 0 <= j < |last.entities| && EntityLabels(last.entities)[j] == l;
          assert data[|data| - 1].entities[j].2 == l;
        }
      }
      if exists i, j :: 0 <= i < |data| && 0 <= j < |data[i].entities| && data[i].entities[j].2 == l {
        var i, j :| 0 <= i < |data| && 0 <= j < |data[i].entities| && data[i].entities[j].2 == l;
        if i < |data| - 1 {
          assert init[i] == data[i];
        } else {
          assert EntityLabels(last.entities)[j] == l;
        }
      }
    }
  }

  /** The `ner` pipe: its label set, in the order labels were first added. */
  class NerPipe {
    var labels: seq<string>

    constructor ()
      ensures labels == []
    {
      labels := [];
    }

    /** `add_label`: a label already known is not added again. */
    method AddLabel(l: string)
      modifies this
      ensures labels == if l in old(labels) then old(labels) else old(labels) + [l]
    {
      if l !in labels {
        labels := labels + [l];
      }
    }
  }

  /** The defaults `fit` fills in, in the order it checks them. */
  const SPACY_DEFAULTS: Defaults := [
    ("n_iterations", Int(100)), ("dropout", Real(0.5)), ("lr", Real(0.001)), ("batch_size", Int(32))]

  /** The defaults list applied check by check. */
  lemma SpacyDefaultsInOrder(h: map<string, Value>)
    ensures SetDefaults(h, SPACY_DEFAULTS)
      == SetDefault(SetDefault(SetDefault(SetDefault(h,
           ("n_iterations", Int(100))), ("dropout", Real(0.5))), ("lr", Real(0.001))), ("batch_size", Int(32)))
  {
    var ds := SPACY_DEFAULTS;
    assert ds[..0] == [];
    SetDefaultsSnoc(h, ds, 0);
    SetDefaultsSnoc(h, ds, 1);
    SetDefaultsSnoc(h, ds, 2);
    SetDefaultsSnoc(h, ds, 3);
    assert ds[..4] == ds;
  }

  /** `fit` leaves every other key as it was, keeps present values, and
      gives each of the four missing ones its default. */
  lemma SpacyDefaults(h: map<string, Value>)
    ensures forall k :: k in h ==> k in SetDefaults(h, SPACY_DEFAULTS) && SetDefaults(h, SPACY_DEFAULTS)[k] == h[k]
    ensures forall k :: k in SetDefaults(h, SPACY_DEFAULTS) ==>
      k in h || k in {"n_iterations", "dropout", "lr", "batch_size"}
    ensures var d := SetDefaults(h, SPACY_DEFAULTS);
      && "n_iterations" in d && "dropout" in d && "lr" in d && "batch_size" in d
      && d["n_iterations"] == (if "n_iterations" in h then h["n_iterations"] else Int(100))
      && d["dropout"] == (if "dropout" in h then h["dropout"] else Real(0.5))
      && d["lr"] == (if "lr" in h then h["lr"] else Real(0.001))
      && d["batch_size"] == (if "batch_size" in h then h["batch_size"] else Int(32))
  {
    var ds := SPACY_DEFAULTS;
    SetDefaultsSpec(h, ds);
    assert DistinctKeys(ds);
    assert ds[0].0 == "n_iterations" && ds[1].0 == "dropout" && ds[2].0 == "lr" && ds[3].0 == "batch_size";
    forall k | k in SetDefaults(h, ds) && k !in h
      ensures k in {"n_iterations", "dropout", "lr", "batch_size"}
    {
      var i :| 0 <= i < |ds| && ds[i].0 == k;
    }
  }

  /** `range(v)`: its length for an integer (a `bool` counts as 0 or 1),
      `TypeError` for anything else. */
  function RangeLength(v: Value): (r: Result<nat, Error>)
    ensures v.Int? ==> r == Success(if v.i < 0 then 0 else v.i)
    ensures v.Bool? ==> r == Success(if v.b then 1 else 0)
    ensures !v.Int? && !v.Bool? ==> r.Failure? && r.error.TypeError?
  {
    match v
    case Int(i) => Success(if i < 0 then 0 else i)
    case Bool(b) => Success(if b then 1 else 0)
    case _ =>
      var r: Result<nat, Error> := Failure(TypeError("object cannot be interpreted as an integer"));
      r
  }

  /** A training run: the model after the rounds that completed, and
      whether every round did. */
  datatype Training = Training(model: SpacyModel, ok: bool)

  /** `n` training rounds from `m`; round `t` is `round(model, t)` (`None`:
      it raised, and the rounds stop there). */
  function Rounds(m: SpacyModel, n: nat, round: (SpacyModel, nat) -> Option<SpacyModel>): Training
    decreases n
  {
    if n == 0 then Training(m, true)
    else
      var prev := Rounds(m, n - 1, round);
      if !prev.ok then prev
      else match round(prev.model, n - 1)
        case None => Training(prev.model, false)
        case Some(m') => Training(m', true)
  }

  /** Training that succeeds ran exactly `n` rounds, in order: the first
      `n - 1` of them succeeded too and the last one produced the model. */
  lemma {:induction false} RoundsPrefix(m: SpacyModel, n: nat, k: nat, round: (SpacyModel, nat) -> Option<SpacyModel>)
    requires k <= n
    requires Rounds(m, n, round).ok
    ensures Rounds(m, k, round).ok
    decreases n
  {
    if k < n {
      RoundsPrefix(m, n - 1, k, round);
    }
  }

  /** What one training run of `fit` comes to, before persisting. */
  function Trained(blankModel: SpacyModel, data: seq<Example>, iterations: Result<nat, Error>,
                   round: (SpacyModel, nat) -> Option<SpacyModel>): Training
  {
    if iterations.Failure? then Training(blankModel, false)
    else if iterations.value == 0 then Training(blankModel, true)
    else if data == [] then Training(blankModel, false)
    else Rounds(blankModel, iterations.value, round)
  }

  /** Without training data, `loss['ner']` is never set: any positive
      number of rounds fails with `KeyError`. */
  lemma EmptyDataFails(b: SpacyModel, n: nat, round: (SpacyModel, nat) -> Option<SpacyModel>)
    requires n > 0
    ensures !Trained(b, [], Success(n), round).ok
  {
  }

  class Learner {
    const id: string
    const kind: string
    var model: Option<SpacyModel>
    /** The labels the last `fit` added to its `ner` pipe; a model
        loaded from disk brings labels of its own, which are not modelled. */
    var nerLabels: seq<string>

    constructor (id: string)
      ensures this.id == id && kind == "spacy" && model == Option.None && nerLabels == []
    {
      this.id := id;
      kind := "spacy";
      model := Option.None;
      nerLabels := [];
    }

    /** `load`: `spacy.load(model_path)` (`None`: it raised). */
    method Load(modelPath: string, load: string -> Option<SpacyModel>) returns (r: Outcome<Error>)
      modifies this
      ensures r == (if load(modelPath).Some? then Pass else Fail(ForeignError("spacy.load")))
      ensures model == (if load(modelPath).Some? then load(modelPath) else old(model))
      ensures nerLabels == old(nerLabels)
    {
      var m := load(modelPath);
      if m.None? {
        return Fail(ForeignError("spacy.load"));
      }
      model := m;
      r := Pass;
    }

    /** `fit`: a blank pipeline for the language with a `ner` pipe, every
        entity label added, the four defaults filled into the caller's
        dictionary, `begin_training`, `hyperparams['n_iterations']` rounds of
        training, then persisting; `None` when anything raises. `blank` is
        `spacy.blank` (`None`: it raised), `beginOk` whether `begin_training`
        succeeded, `round` one round of `model.update` calls over the shuffled
        minibatches, `persistOk` whether `_persist` succeeded. */
    method Fit(language: string, samples: seq<Sample>, hyperparams: PyDict,
               blank: string -> Option<SpacyModel>, beginOk: bool,
               round: (SpacyModel, nat) -> Option<SpacyModel>, persistOk: bool)
      returns (modelPath: Option<string>)
      modifies this, hyperparams
      ensures blank(language).None? ==>
        modelPath == Option.None && model == old(model) && nerLabels == old(nerLabels)
          && hyperparams.entries == old(hyperparams.entries)
      ensures blank(language).Some? ==>
        var h := SetDefaults(old(hyperparams.entries), SPACY_DEFAULTS);
        var t := Trained(blank(language).value, Examples(samples), RangeLength(DictGet(h, "n_iterations")), round);
        && hyperparams.entries == h
        && (forall l :: l in nerLabels <==> l in LabelsOf(Examples(samples)))
        && (forall a, b :: 0 <= a < b < |nerLabels| ==> nerLabels[a] != nerLabels[b])
        && model == (if beginOk then Some(t.model) else blank(language))
        && modelPath == (if beginOk && t.ok && persistOk then Some(ModelZipPath(id)) else Option.None)
    {
      var m := blank(language);
      if m.None? {
        return Option.None;
      }
      model := m;
      var ner := new NerPipe();
      var trainData := Parse(samples);
      AddLabels(ner, trainData);
      nerLabels := ner.labels;
      FitDefaults(hyperparams);
      if !beginOk {
        return Option.None;
      }
      var iterations := RangeLength(DictGet(hyperparams.entries, "n_iterations"));
      var t := Train(m.value, trainData, iterations, round);
      model := Some(t.model);
      if !t.ok || !persistOk {
        return Option.None;
      }
      modelPath := Some(ModelZipPath(id));
    }

    /** `evaluate`: parse, then score every example; `None` when anything
        raises, which includes a missing model as soon as there is an example.
        `score` is the scorer's result over the examples (`None`: a model
        call raised). */
    method Evaluate(samples: seq<Sample>, score: (Option<SpacyModel>, seq<Example>) -> Option<Value>)
      returns (metrics: Option<Value>)
      ensures model.None? && samples != [] ==> metrics == Option.None
      ensures model.Some? || samples == [] ==> metrics == score(model, Examples(samples))
    {
      var testData := Parse(samples);
      if model.None? && testData != [] {
        return Option.None;
      }
      metrics := score(model, testData);
    }

    /** `predict`: one prediction per sample, keeping its text, with one
        entity per span the model finds, in order. Without a model the first
        sample raises `TypeError` (`None` is not callable). */
    method Predict(samples: seq<Sample>, nlp: (SpacyModel, string) -> seq<Span>)
      returns (r: Result<seq<Prediction>, Error>)
      ensures model.None? ==>
        if samples == [] then r == Success([]) else r == Failure(TypeError("'NoneType' object is not callable"))
      ensures model.Some? ==> r.Success? && |r.value| == |samples|
      ensures model.Some? ==> forall i :: 0 <= i < |samples| ==>
        r.value[i].text == samples[i].text && r.value[i].entities == EntitiesOf(nlp(model.value, samples[i].text))
    {
      var preds: seq<Prediction> := [];
      for i := 0 to |samples|
        invariant model.Some? || i == 0
        invariant |preds| == i
        invariant forall t :: 0 <= t < i ==>
          preds[t].text == samples[t].text && preds[t].entities == EntitiesOf(nlp(model.value, samples[t].text))
      {
        var s := samples[i];
        if model.None? {
          return Failure(TypeError("'NoneType' object is not callable"));
        }
        var res := nlp(model.value, s.text);
        var entities: seq<PredictedEntity> := [];
        for j := 0 to |res|
          invariant |entities| == j
          invariant forall t :: 0 <= t < j ==> entities[t] == EntityOf(res[t])
        {
          var e := res[j];
          entities := entities + [PredictedEntity(e.text, e.startChar, e.endChar, e.tag)];
        }
        assert entities == EntitiesOf(res);
        preds := preds + [Prediction(s.text, entities)];
      }
      r := Success(preds);
    }
  }

  /** Register every entity label of the training data with `pipe`. */
  method AddLabels(pipe: NerPipe, data: seq<Example>)
    requires pipe.labels == []
    modifies pipe
    ensures forall l :: l in pipe.labels <==> l in LabelsOf(data)
    ensures forall a, b :: 0 <= a < b < |pipe.labels| ==> pipe.labels[a] != pipe.labels[b]
  {
    for i := 0 to |data|
      invariant forall l :: l in pipe.labels <==> l in LabelsOf(data[..i])
      invariant forall a, b :: 0 <= a < b < |pipe.labels| ==> pipe.labels[a] != pipe.labels[b]
    {
      var d := data[i];
      assert data[..i + 1][..i] == data[..i];
      ghost var before := pipe.labels;
      for j := 0 to |d.entities|
        invariant forall l :: l in pipe.labels <==> l in before || l in EntityLabels(d.entities[..j])
        invariant forall a, b :: 0 <= a < b < |pipe.labels| ==> pipe.labels[a] != pipe.labels[b]
      {
        assert EntityLabels(d.entities[..j + 1]) == EntityLabels(d.entities[..j]) + [d.entities[j].2];
        pipe.AddLabel(d.entities[j].2);
      }
      assert d.entities[..|d.entities|] == d.entities;
    }
    assert data[..|data|] == data;
  }

  /** `fit`'s training loop: `range(n_iterations)` rounds, each failing
      with `KeyError` on `loss['ner']` when there is no training data. */
  method Train(m: SpacyModel, data: seq<Example>, iterations: Result<nat, Error>,
               round: (SpacyModel, nat) -> Option<SpacyModel>)
    returns (t: Training)
    ensures t == Trained(m, data, iterations, round)
  {
    if iterations.Failure? {
      return Training(m, false);
    }
    var current := m;
    for i := 0 to iterations.value
      invariant Rounds(m, i, round) == Training(current, true)
      invariant data == [] ==> i == 0
    {
      if data == [] {
        return Training(current, false);
      }
      var next := round(current, i);
      if next.None? {
        RoundsFailFrom(m, i + 1, iterations.value, round);
        return Training(current, false);
      }
      current := next.value;
    }
    t := Training(current, true);
  }

  /** Once a round fails, every longer run has failed too. */
  lemma {:induction false} RoundsFailFrom(m: SpacyModel, k: nat, n: nat, round: (SpacyModel, nat) -> Option<SpacyModel>)
    requires 0 < k <= n
    requires Rounds(m, k - 1, round).ok
    requires round(Rounds(m, k - 1, round).model, k - 1).None?
    ensures Rounds(m, n, round) == Training(Rounds(m, k - 1, round).model, false)
    decreases n
  {
    if n > k {
      RoundsFailFrom(m, k, n - 1, round);
    }
  }

  /** `fit`'s four `if key not in hyperparams` checks, in the caller's
      dictionary. */
  method FitDefaults(hyperparams: PyDict)
    modifies hyperparams
    ensures hyperparams.entries == SetDefaults(old(hyperparams.entries), SPACY_DEFAULTS)
  {
    SpacyDefaultsInOrder(hyperparams.entries);
    if "n_iterations" !in hyperparams.entries {
      hyperparams.SetItem("n_iterations", Int(100));
    }
    if "dropout" !in hyperparams.entries {
      hyperparams.SetItem("dropout", Real(0.5));
    }
    if "lr" !in hyperparams.entries {
      hyperparams.SetItem("lr", Real(0.001));
    }
    if "batch_size" !in hyperparams.entries {
      hyperparams.SetItem("batch_size", Int(32));
    }
  }

  function EntityOf(e: Span): PredictedEntity {
    PredictedEntity(e.text, e.startChar, e.endChar, e.tag)
  }

  /** The entities of a prediction: one per span, in order, each carrying
      the span's text, character offsets and label. */
  function EntitiesOf(spans: seq<Span>): (r: seq<PredictedEntity>)
    ensures |r| == |spans|
    ensures forall j :: 0 <= j < |spans| ==>
      r[j].value == spans[j].text && r[j].start == spans[j].startChar
      && r[j].end == spans[j].endChar && r[j].tag == spans[j].tag
  {
    seq(|spans|, j requires 0 <= j < |spans| => EntityOf(spans[j]))
  }
}
