/**
 * The Python values the ingest code handles: the documents `json.loads`
 * returns, the exceptions the code raises or lets escape, and the few
 * dictionary operations it applies to decoded JSON.
 */
module PyValues {

  datatype Option<+T> = None | Some(value: T)

  /** The exception classes that can leave an operation of the core. */
  datatype PyError =
    | AttributeError
    | TypeError
    | ValueError
    | FileExistsError
    | NotADirectoryError
    | NotImplementedError

  /** What a Python call does: return a value or raise. */
  datatype Outcome<+T> = Value(value: T) | Raised(error: PyError) {
    predicate IsFailure() { Raised? }

    function PropagateFailure<U>(): Outcome<U>
      requires Raised?
    {
      Raised(error)
    }

    function Extract(): T
      requires Value?
    {
      value
    }
  }

  /**
   * A decoded JSON document. JSON numbers with a fraction or an exponent
   * are not part of the model: ffprobe prints every fractional quantity
   * as a string, and the core parses those strings itself.
   */
  datatype Json =
    | JNull
    | JBool(b: bool)
    | JInt(i: int)
    | JStr(s: string)
    | JArr(items: seq<Json>)
    | JObj(fields: map<string, Json>)

  /** `d.get(key, default)` on a dict. */
  function GetOr(d: map<string, Json>, key: string, default: Json): Json {
    if key in d then d[key] else default
  }

  /** `v.get(key, default)` on any value: only a dict has `get`. */
  function Get(v: Json, key: string, default: Json): Outcome<Json> {
    if v.JObj? then Value(GetOr(v.fields, key, default)) else Raised(AttributeError)
  }

  /** Python's `v == 1`; `True == 1` holds as well, since bool is an int. */
  predicate EqualsOne(v: Json) {
    v == JInt(1) || v == JBool(true)
  }

  /** Python truthiness: None, False, 0, "", [] and {} are false. */
  predicate Truthy(v: Json) {
    match v
    case JNull => false
    case JBool(b) => b
    case JInt(i) => i != 0
    case JStr(s) => s != ""
    case JArr(xs) => xs != []
    case JObj(m) => m != map[]
  }

  /**
   * The items `for x in v` visits when the loop body calls `x.get`.
   * A list yields its elements. A non-empty dict or string yields
   * strings, and the first `.get` on one raises AttributeError. An empty
   * one yields nothing. Any other value is not iterable.
   */
  function ItemsForGet(v: Json): (r: Outcome<seq<Json>>)
    ensures v.JArr? ==> r == Value(v.items)
    ensures r.Value? ==> (v.JArr? && r.value == v.items) || r.value == []
    ensures r.Raised? <==>
      || (v.JObj? && v.fields != map[]) || (v.JStr? && v.s != "")
      || v.JNull? || v.JBool? || v.JInt?
    ensures r.Raised? ==> r.error == if v.JObj? || v.JStr? then AttributeError else TypeError
  {
    match v
    case JArr(xs) => Value(xs)
    case JObj(m) => if m == map[] then Value([]) else Raised(AttributeError)
    case JStr(s) => if s == "" then Value([]) else Raised(AttributeError)
    case _ => Raised(TypeError)
  }
}
