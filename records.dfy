/** The dictionaries the extractors, the detector and the merge pass around:
    string keys mapped to `None`, a string, a list of strings (the OCR tokens
    kept for debugging) or a number (the OCR confidence). */
module Records {
  import opened Strings

  datatype Value = Null | Str(s: String) | Texts(items: seq<String>) | Num(x: real)

  type Record = map<String, Value>

  /** Python truthiness: `None`, `""`, `[]` and `0.0` are false. */
  predicate Truthy(v: Value) {
    match v
    case Null => false
    case Str(s) => s != []
    case Texts(items) => items != []
    case Num(x) => x != 0.0
  }

  /** `d.get(key)`: the stored value, or `None` for a missing key. */
  function Get(d: Record, key: String): (v: Value)
    ensures key !in d ==> v == Null
    ensures key in d ==> v == d[key]
  {
    if key in d then d[key] else Null
  }

  /** An optional extracted string as a dictionary value. */
  function OptStr(o: Option<String>): (v: Value)
    ensures o.None? <==> v == Null
    ensures o.Some? ==> v == Str(o.value)
  {
    match o
    case None => Null
    case Some(s) => Str(s)
  }

  /** An optional string is truthy exactly when it is present and non-empty. */
  lemma OptStrTruthy(o: Option<String>)
    ensures Truthy(OptStr(o)) <==> o.Some? && o.value != []
  {
  }
}
