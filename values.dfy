/** The dynamically typed values that the Python code stores in `details`
    dicts and emits from `to_dict`: JSON-like data. Dict-valued entries are
    maps; the model does not track the key order of those nested dicts. */
module Values {
  import opened Common

  datatype Value =
    | VNone
    | VBool(b: bool)
    | VInt(i: int)
    | VReal(r: real)
    | VStr(s: string)
    | VList(items: seq<Value>)
    | VDict(fields: map<string, Value>)

  type Details = map<string, Value>

  /** Python truthiness of a value: `None`, `False`, zero and empty
      containers are false. */
  predicate Truthy(v: Value) {
    match v
    case VNone => false
    case VBool(b) => b
    case VInt(i) => i != 0
    case VReal(r) => r != 0.0
    case VStr(s) => s != ""
    case VList(items) => items != []
    case VDict(fields) => fields != map[]
  }

  /** Python truthiness of an optional string argument (`if field:`). */
  predicate TruthyStr(s: Option<string>) {
    s.Some? && s.value != ""
  }

  /** Python truthiness of an optional int argument (`if retry_after:`). */
  predicate TruthyInt(n: Option<int>) {
    n.Some? && n.value != 0
  }

  /** `x or default` for an optional string. */
  function OrStr(s: Option<string>, default: string): (r: string)
    ensures TruthyStr(s) ==> r == s.value
    ensures !TruthyStr(s) ==> r == default
  {
    if TruthyStr(s) then s.value else default
  }

  /** `details or {}`: an absent or empty dict both become the empty dict. */
  function OrEmpty(d: Option<Details>): (r: Details)
    ensures d.Some? ==> r == d.value
    ensures d.None? ==> r == map[]
  {
    if d.Some? then d.value else map[]
  }
}
