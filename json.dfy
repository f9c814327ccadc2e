/** The JSON-like dictionaries the Google APIs send and receive, with Python's dict semantics. */
module Json {
  import opened Wrappers
  import Text

  datatype Value =
    | Null
    | Bool(b: bool)
    | Int(i: int)
    | Str(s: string)
    | Arr(items: seq<Value>)
    | Obj(fields: map<string, Value>)

  /** `bool(v)`: `None`, `False`, `0` and empty strings, lists and dicts are false. */
  predicate Truthy(v: Value) {
    match v
    case Null => false
    case Bool(b) => b
    case Int(i) => i != 0
    case Str(s) => s != ""
    case Arr(items) => items != []
    case Obj(fields) => fields != map[]
  }

  /** `d.get(key)` on a dict. */
  function Get(d: map<string, Value>, key: string): Option<Value> {
    if key in d then Some(d[key]) else None
  }

  /** `d.get(key, default)` on a dict. */
  function GetOr(d: map<string, Value>, key: string, default: Value): Value {
    if key in d then d[key] else default
  }

  /** The class name Python reports for a value in its error messages. */
  function TypeName(v: Value): string {
    match v
    case Null => "NoneType"
    case Bool(_) => "bool"
    case Int(_) => "int"
    case Str(_) => "str"
    case Arr(_) => "list"
    case Obj(_) => "dict"
  }

  /** `v[key]` with a string key: the value, or `str(e)` of the exception raised. */
  function Index(v: Value, key: string): (r: Result<Value, string>)
    ensures r.Ok? <==> v.Obj? && key in v.fields
    ensures r.Ok? ==> r.value == v.fields[key]
  {
    match v
    case Obj(fields) => if key in fields then Ok(fields[key]) else Err("'" + key + "'")
    case Arr(_) => Err("list indices must be integers or slices, not str")
    case Str(_) => Err("string indices must be integers, not 'str'")
    case _ => Err("'" + TypeName(v) + "' object is not subscriptable")
  }

  /** `v.get(key, default)`: defined on dicts only. */
  function GetFrom(v: Value, key: string, default: Value): (r: Result<Value, string>)
    ensures r.Ok? <==> v.Obj?
    ensures r.Ok? && key in v.fields ==> r.value == v.fields[key]
    ensures r.Ok? && key !in v.fields ==> r.value == default
  {
    match v
    case Obj(fields) => Ok(GetOr(fields, key, default))
    case _ => Err("'" + TypeName(v) + "' object has no attribute 'get'")
  }

  /** `v[key] = x`: defined on dicts only; gives the updated dict. */
  function SetIn(v: Value, key: string, x: Value): (r: Result<Value, string>)
    ensures r.Ok? <==> v.Obj?
    ensures r.Ok? ==> r.value == Obj(v.fields[key := x])
  {
    match v
    case Obj(fields) => Ok(Obj(fields[key := x]))
    case Arr(_) => Err("list indices must be integers or slices, not str")
    case _ => Err("'" + TypeName(v) + "' object does not support item assignment")
  }

  /** `str(v)` inside an f-string, for a value read with `.get`. */
  function Show(v: Option<Value>): string {
    match v
    case None => "None"
    case Some(Null) => "None"
    case Some(Bool(b)) => if b then "True" else "False"
    case Some(Int(i)) => Text.IntToDecimal(i)
    case Some(Str(s)) => s
    case Some(Arr(_)) => "[...]"
    case Some(Obj(_)) => "{...}"
  }
}
