/** The fragment of Python's object model the core handles: JSON-like
    values (the task payloads, hyperparameter dictionaries, device configs),
    the exceptions the core raises or catches, and dictionaries that are
    updated in place. */
module Python {

  /** A Python value as it appears in a job's payload. Floats are `real`:
      rounding to double precision is not modelled. */
  datatype Value =
    | None
    | Bool(b: bool)
    | Int(i: int)
    | Real(r: real)
    | Str(s: string)
    | List(items: seq<Value>)
    | Dict(fields: map<string, Value>)

  /** Python truthiness (`bool(v)`). */
  predicate Truthy(v: Value) {
    match v
    case None => false
    case Bool(b) => b
    case Int(i) => i != 0
    case Real(r) => r != 0.0
    case Str(s) => s != []
    case List(items) => items != []
    case Dict(fields) => fields != map[]
  }

  /** `d.get(k)`: the value under `k`, or `None` when the key is missing. */
  function DictGet(d: map<string, Value>, k: string): (r: Value)
    ensures k in d ==> r == d[k]
    ensures k !in d ==> r == None
  {
    if k in d then d[k] else None
  }

  /** The exceptions the modelled code raises; `message` is informative only. */
  datatype Error =
    | KeyError(key: string)
    | TypeError(message: string)
    | AttributeError(name: string)
    | IndexError
    | UnboundLocalError(variable: string)
    | RuntimeError(message: string)
    | ForeignError(message: string)  // raised inside a library the model treats as an oracle

  /** A dictionary that the code mutates in place (a caller's `hyperparams`,
      a worker's `task`). */
  class PyDict {
    var entries: map<string, Value>

    constructor (init: map<string, Value>)
      ensures entries == init
    {
      entries := init;
    }

    /** `d[k] = v` */
    method SetItem(k: string, v: Value)
      modifies this
      ensures entries == old(entries)[k := v]
    {
      entries := entries[k := v];
    }
  }
}
