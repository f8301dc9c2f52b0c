/** Untyped JSON as Python's `json` module hands it over: the value
    every function of the core receives and probes defensively. */
module Json {
  import opened Wrappers
  import opened Strings

  /** A decoded JSON value. Objects are Python dicts keyed by strings;
      numbers are integers (floating point is not modelled). */
  datatype Json =
    | JNull
    | JBool(b: bool)
    | JNum(n: int)
    | JStr(s: string)
    | JArr(arr: seq<Json>)
    | JObj(obj: map<string, Json>)

  type Dict = map<string, Json>

  /** The empty dict `{}`, the default of most `.get` calls. */
  const EmptyObj: Json := JObj(map[])

  /** Python truthiness, which decides `if x:` and `a or b`. */
  predicate Truthy(j: Json)
  {
    match j
    case JNull => false
    case JBool(b) => b
    case JNum(n) => n != 0
    case JStr(s) => s != ""
    case JArr(a) => a != []
    case JObj(m) => m != map[]
  }

  /** `d.get(key, default)`. */
  function Get(d: Dict, key: string, default: Json): (r: Json)
    ensures key in d ==> r == d[key]
    ensures key !in d ==> r == default
  {
    if key in d then d[key] else default
  }

  /** Python's `a or b`: a when it is truthy, otherwise b. */
  function Or(a: Json, b: Json): (r: Json)
    ensures Truthy(r) <==> Truthy(a) || Truthy(b)
    ensures Truthy(a) ==> r == a
    ensures !Truthy(a) ==> r == b
  {
    if Truthy(a) then a else b
  }

  /** `str(v)`, which is also what `format(v, "")` and an f-string
      placeholder produce. Lists and dicts are rendered by Python's
      `repr`; the model writes a fixed marker for them instead. */
  function PyStr(j: Json): string
  {
    match j
    case JNull => "None"
    case JBool(b) => if b then "True" else "False"
    case JNum(n) => IntToString(n)
    case JStr(s) => s
    case JArr(_) => "[...]"
    case JObj(_) => "{...}"
  }

  /** `type(v).__name__`, as it appears in Python's exception messages. */
  function TypeName(j: Json): string
  {
    match j
    case JNull => "NoneType"
    case JBool(_) => "bool"
    case JNum(_) => "int"
    case JStr(_) => "str"
    case JArr(_) => "list"
    case JObj(_) => "dict"
  }
}
