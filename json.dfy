/** Dynamically typed values: the JSON-like responses of the annotation
    sources, the flattened INFO values, and the annotation fields the
    pipeline assigns without validation. `JNull` is Python's `None`. The
    helpers below give Python's semantics on such values: truthiness,
    `dict.get`, `in`, `float()` and comparison with a float. */
module Json {
  import opened Wrappers
  import opened Strings

  datatype Json =
    | JNull
    | JBool(b: bool)
    | JNum(n: real)
    | JStr(s: string)
    | JArr(items: seq<Json>)
    | JObj(fields: map<string, Json>)

  /** Python's `bool(x)`. */
  predicate Truthy(j: Json)
  {
    match j
    case JNull => false
    case JBool(b) => b
    case JNum(n) => n != 0.0
    case JStr(s) => s != ""
    case JArr(items) => items != []
    case JObj(fields) => fields != map[]
  }

  /** `d.get(k)`: the value, or `None` when the key is missing. */
  function Get(d: map<string, Json>, k: string): (r: Json)
    ensures k !in d ==> r == JNull
    ensures k in d ==> r == d[k]
  {
    if k in d then d[k] else JNull
  }

  /** `d.get(k, default)`. */
  function GetOr(d: map<string, Json>, k: string, default: Json): (r: Json)
    ensures k !in d ==> r == default
    ensures k in d ==> r == d[k]
  {
    if k in d then d[k] else default
  }

  /** Whether Python can hash the value (lists and dicts cannot). */
  predicate Hashable(j: Json)
  {
    !j.JArr? && !j.JObj?
  }

  /** The number a value stands for in a comparison with a float; `None`
      when Python raises `TypeError` (a bool compares as 0 or 1). */
  function AsNumber(j: Json): (r: Option<real>)
    ensures r.Some? <==> j.JNum? || j.JBool?
  {
    match j
    case JNum(n) => Some(n)
    case JBool(b) => Some(if b then 1.0 else 0.0)
    case _ => None
  }

  /** `float(j)`, with the parsing of strings supplied by the caller;
      `None` when Python raises `ValueError` or `TypeError`. */
  function ToFloat(j: Json, parseReal: string -> Option<real>): Option<real>
  {
    match j
    case JStr(s) => parseReal(s)
    case _ => AsNumber(j)
  }

  /** Python's `item in container` for a string `item`: substring on a
      string, membership on a list, key lookup on a dict; `Err` is the
      `TypeError` raised for any other container. */
  function In(item: string, container: Json): (r: Result<bool>)
    ensures r.Err? <==> container.JNull? || container.JBool? || container.JNum?
    ensures container.JStr? ==> r == Ok(Contains(container.s, item))
    ensures container.JObj? ==> r == Ok(item in container.fields)
  {
    match container
    case JStr(s) => Ok(Contains(s, item))
    case JArr(items) => Ok(JStr(item) in items)
    case JObj(fields) => Ok(item in fields)
    case _ => Err("TypeError: argument is not iterable")
  }

  /** `container[key]` with a string key: the value under a dict key; `Err`
      is the `KeyError` of a missing key or the `TypeError` of any other
      container. */
  function Index(container: Json, key: string): (r: Result<Json>)
    ensures r.Ok? <==> container.JObj? && key in container.fields
    ensures r.Ok? ==> r.value == container.fields[key]
  {
    match container
    case JObj(fields) => if key in fields then Ok(fields[key]) else Err("KeyError")
    case _ => Err("TypeError: indices must be integers")
  }

  /** `container[0]`: the first item of a list or the first character of a
      string; a dict has no key `0`, and nothing else can be indexed. */
  function Head(container: Json): (r: Result<Json>)
    ensures r.Ok? <==> (container.JArr? && |container.items| > 0) || (container.JStr? && |container.s| > 0)
    ensures container.JArr? && |container.items| > 0 ==> r == Ok(container.items[0])
  {
    match container
    case JArr(items) => if |items| > 0 then Ok(items[0]) else Err("IndexError")
    case JStr(s) => if |s| > 0 then Ok(JStr([s[0]])) else Err("IndexError")
    case JObj(_) => Err("KeyError")
    case _ => Err("TypeError: object is not subscriptable")
  }

  /** `str(j)`: a string is itself; the rendering of any other value is
      supplied by the caller. */
  function Text(j: Json, str: Json -> string): (t: string)
    ensures j.JStr? ==> t == j.s
  {
    if j.JStr? then j.s else str(j)
  }
}
