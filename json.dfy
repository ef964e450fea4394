/** Decoded JSON values: what `json.loads` hands back for a stored metadata
    blob, and the Python truth value the catalog code tests them with. */
module Json {

  datatype Option<+T> = None | Some(value: T)

  /** A decoded JSON value (numbers are limited to integers). */
  datatype Value =
    | Null
    | Bool(b: bool)
    | Int(i: int)
    | Str(s: string)
    | Array(items: seq<Value>)
    | Object(fields: map<string, Value>)

  /** A JSON object, i.e. a Python dict with string keys. */
  type Dict = map<string, Value>

  /** Python's truth value of a decoded JSON value (`if value:`). */
  predicate Truthy(v: Value) {
    match v
    case Null => false
    case Bool(b) => b
    case Int(i) => i != 0
    case Str(s) => s != ""
    case Array(items) => items != []
    case Object(fields) => fields != map[]
  }

  /** `existing.update(update)`: a shallow merge in which the keys of
      `update` win and every other key of `existing` is kept. */
  function Merged(existing: Dict, update: Dict): (m: Dict)
    ensures m.Keys == existing.Keys + update.Keys
    ensures forall k :: k in update ==> m[k] == update[k]
    ensures forall k :: k in existing && k !in update ==> m[k] == existing[k]
  {
    existing + update
  }

  /** Merging a dict with a merge of itself adds nothing: this is why
      `add_metadata`, which merges twice, ends where one merge would. */
  lemma MergeAbsorbs(existing: Dict, update: Dict)
    ensures Merged(existing, Merged(existing, update)) == Merged(existing, update)
  {
    var once := Merged(existing, update);
    var twice := Merged(existing, once);
    assert twice.Keys == once.Keys;
    forall k | k in once ensures twice[k] == once[k] {
    }
  }
}
