/** JSON values as Python's `json` module hands them to the A2A payment service. */
module Json {
  import opened Outcomes

  /** `NonFinite` stands for the NaN and infinities that Python's parser accepts. */
  datatype Value =
    | Null
    | Bool(b: bool)
    | Int(i: int)
    | Float(r: real)
    | NonFinite
    | Str(s: string)
    | List(items: seq<Value>)
    | Obj(fields: map<string, Value>)

  type Object = map<string, Value>

  /** `dict.get(key, default)`. */
  function FieldOr(o: Object, key: string, default: Value): Value {
    if key in o then o[key] else default
  }

  /** `dict.get(key)`: an absent key and an explicit null both read as None. */
  function Field(o: Object, key: string): Value {
    FieldOr(o, key, Null)
  }

  /** A non-empty string field, or None. */
  function OptionalString(o: Object, key: string): Option<string> {
    match Field(o, key)
    case Str(s) => if s != "" then Some(s) else None
    case _ => None
  }

  lemma OptionalStringExact(o: Object, key: string, s: string)
    ensures OptionalString(o, key) == Some(s) <==> key in o && o[key] == Str(s) && s != ""
  {
  }

  /** Booleans are not integers here, and floats count when they are whole. */
  function CoerceInt(v: Value): Option<int> {
    match v
    case Int(i) => Some(i)
    case Float(r) => if r == r.Floor as real then Some(r.Floor) else None
    case _ => None
  }

  /** The number is written as an integer or as a float without a fraction; a boolean is neither. */
  ghost predicate Reads(v: Value, n: int) {
    v == Int(n) || v == Float(n as real)
  }

  lemma CoerceIntExact(v: Value, n: int)
    ensures CoerceInt(v) == Some(n) <==> Reads(v, n)
  {
  }
}
