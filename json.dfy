/** JSON values as Python's `json` module produces them, with the bits of
    Python semantics the toolkit relies on: `dict.get`, truthiness and `str()`. */
module Json {
  import opened Wrappers
  import opened Text

  /** A parsed JSON value. Objects keep insertion order, as Python dicts do;
      floats are modelled as reals (NaN and infinities are not modelled). */
  datatype Value =
    | JNull
    | JBool(b: bool)
    | JInt(i: int)
    | JFloat(r: real)
    | JString(s: string)
    | JArray(items: seq<Value>)
    | JObject(fields: seq<(string, Value)>)

  /** The library calls the toolkit makes but does not implement. Each is a
      total function given by the caller. */
  datatype Foreign = Foreign(
    loads: string -> Result<Value, string>,   // json.loads; Err carries str(JSONDecodeError)
    repr: Value -> string,                    // str(v) for floats, lists and dicts
    dumps: Value -> string,                   // json.dumps(v)
    dumpsIndented: Value -> string,           // json.dumps(v, indent=2)
    group: Value -> string,                   // format(v, ",") for a float
    urlPath: string -> string,                // urlparse(url).path
    clock: Value -> string,                   // "%H:%M:%S.mmm" wall-clock rendering of a timestamp
    mask: string -> string)                   // mask_string_value (regex and path masking)

  /** The value stored under `key` (the first such field), if any. */
  function Lookup(fields: seq<(string, Value)>, key: string): (r: Option<Value>)
    ensures r.Some? <==> exists j :: 0 <= j < |fields| && fields[j].0 == key
  {
    if fields == [] then None
    else if fields[0].0 == key then Some(fields[0].1)
    else Lookup(fields[1..], key)
  }

  predicate HasKey(v: Value, key: string)
  {
    v.JObject? && Lookup(v.fields, key).Some?
  }

  /** Python's `d.get(key, default)` on a dict `d`. */
  function Get(v: Value, key: string, default: Value): Value
    requires v.JObject?
  {
    match Lookup(v.fields, key)
    case Some(x) => x
    case None => default
  }

  /** Python's truthiness of a JSON value (`if v:`). */
  predicate Truthy(v: Value)
  {
    match v
    case JNull => false
    case JBool(b) => b
    case JInt(i) => i != 0
    case JFloat(r) => r != 0.0
    case JString(s) => s != ""
    case JArray(items) => items != []
    case JObject(fields) => fields != []
  }

  predicate IsNumber(v: Value)
  {
    v.JInt? || v.JFloat?
  }

  function NumberValue(v: Value): real
    requires IsNumber(v)
  {
    if v.JInt? then v.i as real else v.r
  }

  /** `type(v).__name__` for a value `json.loads` returns. */
  function PyTypeName(v: Value): string
  {
    match v
    case JNull => "NoneType"
    case JBool(_) => "bool"
    case JInt(_) => "int"
    case JFloat(_) => "float"
    case JString(_) => "str"
    case JArray(_) => "list"
    case JObject(_) => "dict"
  }

  /** `str(v)` inside an f-string: strings verbatim, None/bools/ints as
      Python prints them, everything else through the given `repr`. */
  function Show(v: Value, py: Foreign): string
  {
    match v
    case JString(s) => s
    case JNull => "None"
    case JBool(b) => if b then "True" else "False"
    case JInt(i) => IntStr(i)
    case _ => py.repr(v)
  }

  /** The fields of one object have distinct keys, as after `json.loads`
      (nested objects are not constrained). */
  predicate DistinctKeys(fields: seq<(string, Value)>)
  {
    forall i, j :: 0 <= i < j < |fields| ==> fields[i].0 != fields[j].0
  }
}
