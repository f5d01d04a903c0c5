/** What the three learners share: the model directory and path joining,
    the archive path `_persist` returns, and filling missing
    hyperparameters with defaults. */
module Learners {
  import opened Python

  /** `utils.constants.DEFAULT_PATH` */
  const DEFAULT_PATH: string := "models/"

  /** `os.path.join(a, b)` (POSIX): an absolute `b` replaces `a`; otherwise
      a separator is inserted unless `a` is empty or already ends in one. */
  function PathJoin(a: string, b: string): (r: string)
    ensures |b| > 0 && b[0] == '/' ==> r == b
    ensures (b == [] || b[0] != '/') ==> |r| >= |a| + |b| && r[|r| - |b|..] == b && r[..|a|] == a
  {
    if |b| > 0 && b[0] == '/' then b
    else if a == [] || a[|a| - 1] == '/' then a + b
    else a + "/" + b
  }

  /** A relative component lands directly under the model directory. */
  lemma PathJoinDefault(b: string)
    requires b == [] || b[0] != '/'
    ensures PathJoin(DEFAULT_PATH, b) == DEFAULT_PATH + b
  {
  }

  /** `_persist`'s result: `zip_file` returns the archive name it was
      given, `os.path.join(DEFAULT_PATH, id) + '.zip'`. */
  function ModelZipPath(id: string): (r: string)
    ensures (id == [] || id[0] != '/') ==> r == DEFAULT_PATH + id + ".zip"
  {
    PathJoin(DEFAULT_PATH, id) + ".zip"
  }

  // ---------------------------------------------------------------------
  // `if key not in hyperparams: hyperparams[key] = value`, in sequence

  type Defaults = seq<(string, Value)>

  function SetDefault(h: map<string, Value>, kv: (string, Value)): map<string, Value> {
    if kv.0 in h then h else h[kv.0 := kv.1]
  }

  /** The checks applied in list order. */
  function SetDefaults(h: map<string, Value>, ds: Defaults): map<string, Value>
    decreases |ds|
  {
    if ds == [] then h else SetDefault(SetDefaults(h, ds[..|ds| - 1]), ds[|ds| - 1])
  }

  /** Defaulting one more key after a prefix of the list. */
  lemma SetDefaultsSnoc(h: map<string, Value>, ds: Defaults, i: nat)
    requires i < |ds|
    ensures SetDefaults(h, ds[..i + 1]) == SetDefault(SetDefaults(h, ds[..i]), ds[i])
  {
    assert ds[..i + 1][..i] == ds[..i];
  }

  predicate DistinctKeys(ds: Defaults) {
    forall i, j :: 0 <= i < j < |ds| ==> ds[i].0 != ds[j].0
  }

  predicate IsDefaultKey(ds: Defaults, k: string) {
    exists i :: 0 <= i < |ds| && ds[i].0 == k
  }

  /** Defaulting keeps every key already present with its value, adds only
      the listed keys, and gives each missing one its default. */
  lemma SetDefaultsSpec(h: map<string, Value>, ds: Defaults)
    ensures forall k :: k in h ==> k in SetDefaults(h, ds) && SetDefaults(h, ds)[k] == h[k]
    ensures forall k :: k in SetDefaults(h, ds) <==> k in h || IsDefaultKey(ds, k)
    ensures DistinctKeys(ds) ==>
      forall i :: 0 <= i < |ds| && ds[i].0 !in h ==> ds[i].0 in SetDefaults(h, ds) && SetDefaults(h, ds)[ds[i].0] == ds[i].1
  {
    SetDefaultsKeeps(h, ds);
    SetDefaultsKeys(h, ds);
    if DistinctKeys(ds) {
      SetDefaultsValues(h, ds);
    }
  }

  lemma {:induction false} SetDefaultsKeeps(h: map<string, Value>, ds: Defaults)
    ensures forall k :: k in h ==> k in SetDefaults(h, ds) && SetDefaults(h, ds)[k] == h[k]
    decreases |ds|
  {
    if ds != [] {
      SetDefaultsKeeps(h, ds[..|ds| - 1]);
    }
  }

  lemma {:induction false} SetDefaultsKeys(h: map<string, Value>, ds: Defaults)
    ensures forall k :: k in SetDefaults(h, ds) <==> k in h || IsDefaultKey(ds, k)
    decreases |ds|
  {
    if ds != [] {
      var init := ds[..|ds| - 1];
      var last := ds[|ds| - 1];
      SetDefaultsKeys(h, init);
      forall k ensures k in SetDefaults(h, ds) <==> k in h || IsDefaultKey(ds, k) {
        if IsDefaultKey(init, k) {
          var i :| 0 <= i < |init| && init[i].0 == k;
          assert ds[i].0 == k;
        }
        if IsDefaultKey(ds, k) && k != last.0 {
          var i :| 0 <= i < |ds| && ds[i].0 == k;
          assert init[i].0 == k;
        }
      }
    }
  }

  lemma {:induction false} SetDefaultsValues(h: map<string, Value>, ds: Defaults)
    requires DistinctKeys(ds)
    ensures forall i :: 0 <= i < |ds| && ds[i].0 !in h ==> ds[i].0 in SetDefaults(h, ds) && SetDefaults(h, ds)[ds[i].0] == ds[i].1
    decreases |ds|
  {
    if ds != [] {
      var init := ds[..|ds| - 1];
      var last := ds[|ds| - 1];
      assert DistinctKeys(init) by {
        forall i, j | 0 <= i < j < |init| ensures init[i].0 != init[j].0 {
          assert init[i] == ds[i] && init[j] == ds[j];
        }
      }
      SetDefaultsValues(h, init);
      forall i | 0 <= i < |ds| && ds[i].0 !in h
        ensures ds[i].0 in SetDefaults(h, ds) && SetDefaults(h, ds)[ds[i].0] == ds[i].1
      {
        if i < |ds| - 1 {
          assert init[i] == ds[i];
          assert ds[i].0 != last.0;
        } else {
          SetDefaultsKeys(h, init);
          assert !IsDefaultKey(init, last.0) by {
            forall j | 0 <= j < |init| ensures init[j].0 != last.0 {
              assert init[j] == ds[j];
            }
          }
        }
      }
    }
  }

  /** Defaulting twice is defaulting once. */
  lemma {:induction false} SetDefaultsIdempotent(h: map<string, Value>, ds: Defaults)
    ensures SetDefaults(SetDefaults(h, ds), ds) == SetDefaults(h, ds)
  {
    var r := SetDefaults(h, ds);
    SetDefaultsSpec(h, ds);
    SetDefaultsSpec(r, ds);
    var rr := SetDefaults(r, ds);
    assert forall k :: k in rr <==> k in r by {
      forall k ensures k in rr <==> k in r {
        if IsDefaultKey(ds, k) {
          var i :| 0 <= i < |ds| && ds[i].0 == k;
          SetDefaultsContainsKey(h, ds, i);
        }
      }
    }
  }

  lemma {:induction false} SetDefaultsContainsKey(h: map<string, Value>, ds: Defaults, i: nat)
    requires i < |ds|
    ensures ds[i].0 in SetDefaults(h, ds)
    decreases |ds|
  {
    var init := ds[..|ds| - 1];
    if i < |ds| - 1 {
      assert init[i] == ds[i];
      SetDefaultsContainsKey(h, init, i);
      SetDefaultsSpec(SetDefaults(h, init), [ds[|ds| - 1]]);
    }
  }
}
