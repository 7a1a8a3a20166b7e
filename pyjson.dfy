/** JSON-shaped values as Python holds them after decoding a JSON document,
    and the two Python operations the AI cog applies to them: `v.get(key, default)`
    and `v[0]`. An operation that Python would abort with an exception yields
    `Raise` carrying the exception class and the text `str(e)` would give. */
module PyJson {

  datatype Option<+T> = None | Some(value: T)

  /** A Python exception; `message` is what `str(e)` returns. */
  datatype PyError =
    | IndexError(message: string)
    | KeyError(message: string)
    | TypeError(message: string)
    | AttributeError(message: string)
    /** An exception raised outside this model (by the HTTP client or the JSON reader). */
    | ClientError(message: string)

  /** Either the value an expression returns or the exception it raises. */
  datatype Result<+T> = Ok(value: T) | Raise(error: PyError) {
    predicate IsFailure() { Raise? }

    function PropagateFailure<U>(): Result<U>
      requires Raise?
    {
      Raise(error)
    }

    function Extract(): T
      requires Ok?
    {
      value
    }
  }

  /** A decoded JSON value: `null`, `true`/`false`, an integer, a number
      with a fraction or exponent (kept as its literal text, never interpreted),
      a string, a list, or a dict with string keys. */
  datatype Json =
    | Null
    | Bool(b: bool)
    | Int(i: int)
    | Float(literal: string)
    | Str(s: string)
    | List(items: seq<Json>)
    | Dict(fields: map<string, Json>)

  /** The name Python prints for the type of `v`. */
  function TypeName(v: Json): string
  {
    match v
    case Null => "NoneType"
    case Bool(_) => "bool"
    case Int(_) => "int"
    case Float(_) => "float"
    case Str(_) => "str"
    case List(_) => "list"
    case Dict(_) => "dict"
  }

  predicate Has(v: Json, key: string)
  {
    v.Dict? && key in v.fields
  }

  function At(v: Json, key: string): Json
    requires Has(v, key)
  {
    v.fields[key]
  }

  /** Python's `v.get(key, default)`: only a dict has the attribute. */
  function Get(v: Json, key: string, default: Json): (r: Result<Json>)
    ensures r.Ok? <==> v.Dict?
    ensures Has(v, key) ==> r == Ok(At(v, key))
    ensures v.Dict? && !Has(v, key) ==> r == Ok(default)
    ensures !v.Dict? ==> r == Raise(AttributeError("'" + TypeName(v) + "' object has no attribute 'get'"))
  {
    match v
    case Dict(fields) => Ok(if key in fields then fields[key] else default)
    case _ => Raise(AttributeError("'" + TypeName(v) + "' object has no attribute 'get'"))
  }

  const LIST_INDEX_OUT_OF_RANGE := "list index out of range"
  const STRING_INDEX_OUT_OF_RANGE := "string index out of range"

  /** Python's `v[0]`: the first element of a list, the first character of
      a string, a `KeyError` for a dict (JSON dicts have no key `0`), and a
      `TypeError` for every other value. */
  function First(v: Json): (r: Result<Json>)
    ensures r.Ok? <==> (v.List? && v.items != []) || (v.Str? && v.s != [])
    ensures v.List? && v.items != [] ==> r == Ok(v.items[0])
    ensures v.Str? && v.s != [] ==> r == Ok(Str([v.s[0]]))
    ensures v == List([]) ==> r == Raise(IndexError(LIST_INDEX_OUT_OF_RANGE))
    ensures v == Str([]) ==> r == Raise(IndexError(STRING_INDEX_OUT_OF_RANGE))
    ensures v.Dict? ==> r == Raise(KeyError("0"))
    ensures v.Null? || v.Bool? || v.Int? || v.Float?
            ==> r == Raise(TypeError("'" + TypeName(v) + "' object is not subscriptable"))
  {
    match v
    case List(items) =>
      if items == [] then Raise(IndexError(LIST_INDEX_OUT_OF_RANGE)) else Ok(items[0])
    case Str(s) =>
      if s == [] then Raise(IndexError(STRING_INDEX_OUT_OF_RANGE)) else Ok(Str([s[0]]))
    case Dict(_) => Raise(KeyError("0"))
    case _ => Raise(TypeError("'" + TypeName(v) + "' object is not subscriptable"))
  }
}
