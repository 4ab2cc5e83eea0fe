/**
 * The dynamically typed JSON-like values that travel in event payloads,
 * message payloads and `to_dict` forms, with Python's truthiness and
 * `dict.get` lookups.
 */
module Json {
  import opened Wrappers
  import Text

  datatype Json =
    | JNull
    | JBool(b: bool)
    | JNum(n: int)
    | JStr(s: string)
    | JArr(items: seq<Json>)
    | JObj(fields: map<string, Json>)

  /** A Python `dict` with string keys. */
  type Object = map<string, Json>

  /** Python's `bool(x)`: None, False, 0, "", [] and {} are false. */
  predicate Truthy(j: Json) {
    match j
    case JNull => false
    case JBool(b) => b
    case JNum(n) => n != 0
    case JStr(s) => s != ""
    case JArr(a) => a != []
    case JObj(m) => m != map[]
  }

  /** `m.get(key, default)`. */
  function GetOr(m: Object, key: string, default: Json): Json {
    if key in m then m[key] else default
  }

  /** `m.get(key)`: None when absent. */
  function Get(m: Object, key: string): Json {
    GetOr(m, key, JNull)
  }

  /** `x or {}` for a value that should be a dict. */
  function ObjectOr(j: Json): Json {
    if Truthy(j) then j else JObj(map[])
  }

  function OptStr(o: Option<string>): Json {
    match o
    case Some(s) => JStr(s)
    case None => JNull
  }

  function OptNum(o: Option<int>): Json {
    match o
    case Some(n) => JNum(n)
    case None => JNull
  }

  /** `type(x).__name__`. */
  function TypeName(j: Json): string {
    match j
    case JNull => "NoneType"
    case JBool(_) => "bool"
    case JNum(_) => "int"
    case JStr(_) => "str"
    case JArr(_) => "list"
    case JObj(_) => "dict"
  }

  /** `str(x)` for a value that is not a container. */
  function ScalarText(j: Json): string
    requires !j.JArr? && !j.JObj?
  {
    match j
    case JNull => "None"
    case JBool(b) => if b then "True" else "False"
    case JNum(n) => Text.IntText(n)
    case JStr(s) => s
  }

  /** `m[key]` read as a string: a missing key raises KeyError. */
  function RequireStr(m: Object, key: string): (r: Result<string>)
    ensures r.Success? <==> key in m && m[key].JStr?
    ensures r.Success? ==> m[key] == JStr(r.value)
  {
    if key !in m then Failure("KeyError: " + key)
    else if m[key].JStr? then Success(m[key].s)
    else Failure("TypeError: " + key)
  }

  /** `m[key]` read as a number. */
  function RequireNum(m: Object, key: string): (r: Result<int>)
    ensures r.Success? <==> key in m && m[key].JNum?
    ensures r.Success? ==> m[key] == JNum(r.value)
  {
    if key !in m then Failure("KeyError: " + key)
    else if m[key].JNum? then Success(m[key].n)
    else Failure("TypeError: " + key)
  }

  /** `m.get(key)` read as an optional string. */
  function OptionalStr(m: Object, key: string): (r: Result<Option<string>>)
    ensures r.Success? <==> Get(m, key).JNull? || Get(m, key).JStr?
    ensures r.Success? ==> Get(m, key) == OptStr(r.value)
  {
    match Get(m, key)
    case JNull => Success(None)
    case JStr(s) => Success(Some(s))
    case _ => Failure("TypeError: " + key)
  }

  /** `m.get(key, {})` read as a dict. */
  function ObjectField(m: Object, key: string): (r: Result<Object>)
    ensures r.Success? <==> GetOr(m, key, JObj(map[])).JObj?
    ensures r.Success? ==> GetOr(m, key, JObj(map[])) == JObj(r.value)
  {
    match GetOr(m, key, JObj(map[]))
    case JObj(o) => Success(o)
    case _ => Failure("TypeError: " + key)
  }

  /** A numeric field, or `default` when it is absent or not a number. */
  function NumOr(m: Object, key: string, default: int): int {
    if key in m && m[key].JNum? then m[key].n else default
  }
}
