/** Values of the decoded JSON documents the weather provider returns, and the
    Python truthiness rules the integration applies to them. */
module Json {

  datatype Option<+T> = None | Some(value: T)

  /** A decoded JSON value. A float carries the text Python's `str()` prints for it. */
  datatype Value =
    | Null
    | Bool(b: bool)
    | Int(i: int)
    | Float(x: real, repr: string)
    | Str(s: string)
    | List(items: seq<Value>)
    | Dict(fields: map<string, Value>)

  /** One station object of a provider reply (a JSON object). */
  type Record = map<string, Value>

  /** Python's `bool(v)`: None, False, 0, 0.0, "", [] and {} are false. */
  predicate Truthy(v: Value) {
    match v
    case Null => false
    case Bool(b) => b
    case Int(i) => i != 0
    case Float(x, _) => x != 0.0
    case Str(s) => s != ""
    case List(items) => items != []
    case Dict(fields) => fields != map[]
  }

  /** `record.get(key)`: a missing key reads as None. */
  function Get(r: Record, key: string): Value {
    if key in r then r[key] else Null
  }

  /** `record.get(key, default)`. */
  function GetOr(r: Record, key: string, default: Value): Value {
    if key in r then r[key] else default
  }

  /** Whether Python can put the value in a set (lists and dicts cannot). */
  predicate Hashable(v: Value) {
    !v.List? && !v.Dict?
  }

  /** Decimal text of a natural number. */
  function NatText(n: nat): (r: string)
    ensures |r| >= 1
    ensures forall i :: 0 <= i < |r| ==> '0' <= r[i] <= '9'
  {
    var d := ['0' + (n % 10) as char];
    if n < 10 then d else NatText(n / 10) + d
  }

  /** Python's `str(v)`, as an f-string prints it. Lists and dicts get a fixed
      placeholder instead of Python's repr. */
  function Show(v: Value): string {
    match v
    case Null => "None"
    case Bool(b) => if b then "True" else "False"
    case Int(i) => if i < 0 then "-" + NatText(-i) else NatText(i)
    case Float(_, repr) => repr
    case Str(s) => s
    case List(_) => "[...]"
    case Dict(_) => "{...}"
  }
}
