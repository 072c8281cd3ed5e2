/** Raw configuration values as they arrive from the filter database: a
    JSON-like tree. Each setting entry reads the part it needs and reports
    a Python-style error when a field is missing or of the wrong shape. */
module Values {
  import opened Wrappers

  type Snowflake = nat

  datatype Value =
    | Null
    | Bool(b: bool)
    | Int(i: int)
    | Str(s: string)
    | List(items: seq<Value>)
    | Dict(fields: map<string, Value>)

  /** The exception a load step would raise. */
  datatype LoadError =
    | KeyError(key: string)
    | TypeError(what: string)
    | ValueError(what: string)
    | AttributeError(what: string)

  /** Python truthiness of a configuration value. */
  predicate Truthy(v: Value) {
    match v
    case Null => false
    case Bool(b) => b
    case Int(i) => i != 0
    case Str(s) => s != ""
    case List(items) => items != []
    case Dict(fields) => fields != map[]
  }

  /** Whether an entry's raw value holds anything: a null, or a dictionary
      none of whose fields is truthy, holds nothing and gives no entry. */
  predicate HoldsValue(v: Value) {
    match v
    case Null => false
    case Dict(fields) => exists k :: k in fields && Truthy(fields[k])
    case _ => true
  }

  /** `d[key]` on a dictionary value. */
  function Field(v: Value, key: string): (r: Result<Value, LoadError>)
    ensures r.Ok? <==> v.Dict? && key in v.fields
    ensures r.Ok? ==> r.value == v.fields[key]
  {
    if !v.Dict? then Err(TypeError(key))
    else if key !in v.fields then Err(KeyError(key))
    else Ok(v.fields[key])
  }

  /** `set(v)` for a list of ids. */
  function IdSet(v: Value, what: string): (r: Result<set<Snowflake>, LoadError>)
    ensures r.Ok? <==> v.List? && forall i :: 0 <= i < |v.items| ==> v.items[i].Int? && v.items[i].i >= 0
    ensures r.Ok? ==> forall x :: x in r.value <==> exists i :: 0 <= i < |v.items| && v.items[i] == Int(x)
  {
    if v.List? && forall i :: 0 <= i < |v.items| ==> v.items[i].Int? && v.items[i].i >= 0 then
      Ok(set i | 0 <= i < |v.items| :: v.items[i].i as Snowflake)
    else
      Err(TypeError(what))
  }

  /** A string field where a null counts as the empty string. */
  function TextField(v: Value, what: string): (r: Result<string, LoadError>)
    ensures r.Ok? <==> v.Null? || v.Str?
    ensures v.Str? ==> r == Ok(v.s)
    ensures v.Null? ==> r == Ok("")
  {
    match v
    case Null => Ok("")
    case Str(s) => Ok(s)
    case _ => Err(TypeError(what))
  }
}
