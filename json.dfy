/**
 * Dynamic JSON values, the shape of Go's `any` after json.Unmarshal and of
 * the untyped request and response bodies on the TypeScript side.
 */
module Json {
  import opened Wrappers

  datatype Value =
    | Null
    | Bool(b: bool)
    | Num(n: real)
    | Str(s: string)
    | Arr(items: seq<Value>)
    | Obj(fields: map<string, Value>)

  type Object = map<string, Value>

  predicate IsInteger(r: real) {
    r.Floor as real == r
  }

  /** Go's `m[key].(string)`: the member when it is a string. */
  function StringAt(m: Object, key: string): (r: Option<string>)
    ensures r.Some? <==> key in m && m[key].Str?
    ensures r.Some? ==> m[key] == Str(r.value)
  {
    if key in m && m[key].Str? then Some(m[key].s) else None
  }

  /** Go's `m[key].(map[string]any)`: the member when it is an object. */
  function ObjectAt(m: Object, key: string): (r: Option<Object>)
    ensures r.Some? <==> key in m && m[key].Obj?
    ensures r.Some? ==> m[key] == Obj(r.value)
  {
    if key in m && m[key].Obj? then Some(m[key].fields) else None
  }

  /** Go's `m[key].(bool)`: the member when it is a boolean. */
  function BoolAt(m: Object, key: string): (r: Option<bool>)
    ensures r.Some? <==> key in m && m[key].Bool?
    ensures r.Some? ==> m[key] == Bool(r.value)
  {
    if key in m && m[key].Bool? then Some(m[key].b) else None
  }

  /** Go's `m[key].([]any)`: the member when it is an array. */
  function ArrayAt(m: Object, key: string): (r: Option<seq<Value>>)
    ensures r.Some? <==> key in m && m[key].Arr?
    ensures r.Some? ==> m[key] == Arr(r.value)
  {
    if key in m && m[key].Arr? then Some(m[key].items) else None
  }
}
