/** The data a YAML or JSON document loads to, as far as the policy checker
    looks at it: mappings with string keys, lists, strings, integers,
    booleans and null.  Any other scalar (a float, a date) is `Other`,
    carrying only its Python truth value. */
module Documents {
  import opened Wrappers
  import opened Strs

  datatype Value =
    | Null
    | Bool(b: bool)
    | Int(i: int)
    | Str(s: string)
    | List(items: seq<Value>)
    | Mapping(fields: map<string, Value>)
    | Other(truthy: bool)

  /** Python's truth value (`if value:`). */
  predicate Truthy(v: Value) {
    match v
    case Null => false
    case Bool(b) => b
    case Int(i) => i != 0
    case Str(s) => s != ""
    case List(items) => items != []
    case Mapping(fields) => fields != map[]
    case Other(t) => t
  }

  /** `data.get(key)` on a mapping: `None` for a missing key. */
  function Get(fields: map<string, Value>, key: string): Value {
    if key in fields then fields[key] else Null
  }

  /** `a or b` */
  function Or(a: Value, b: Value): (r: Value)
    ensures Truthy(a) ==> r == a
    ensures !Truthy(a) ==> r == b
  {
    if Truthy(a) then a else b
  }

  /** `str(v)`, given the rendering of values that are not strings. */
  function Text(show: Value -> string, v: Value): string {
    if v.Str? then v.s else show(v)
  }

  /** `field in value`: key membership for a mapping, element membership
      for a list, substring search for a string; for any other value
      Python raises a TypeError, here `None`. */
  function Member(v: Value, field: string): (r: Option<bool>)
    ensures r.None? <==> !(v.Mapping? || v.List? || v.Str?)
    ensures v.Mapping? ==> r == Some(field in v.fields)
  {
    match v
    case Mapping(fields) => Some(field in fields)
    case List(items) => Some(Str(field) in items)
    case Str(s) => Some(Contains(s, field))
    case _ => None
  }
}
