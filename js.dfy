/**
 * The JavaScript values the request handlers read from JSON and pass on,
 * with the truthiness and property-access rules they rely on.
 */
module Js {
  import opened Wrappers

  /** A JSON-like JavaScript value. Numbers are integers here. */
  datatype Value =
    | Undefined
    | Null
    | Bool(b: bool)
    | Num(n: int)
    | Str(s: string)
    | Array(items: seq<Value>)
    | Object(fields: map<string, Value>)

  /** What a `throw` carries: the engine's TypeError or SyntaxError (whose
      message text is the engine's), or an `Error` with a given message. */
  datatype Error = TypeError | SyntaxError | Raised(message: string)

  predicate Truthy(v: Value) {
    match v
    case Undefined => false
    case Null => false
    case Bool(b) => b
    case Num(n) => n != 0
    case Str(s) => s != ""
    case Array(_) => true
    case Object(_) => true
  }

  predicate Nullish(v: Value) {
    v.Undefined? || v.Null?
  }

  /** `v.key`: a TypeError on `null`/`undefined`, `undefined` for a missing key. */
  function Member(v: Value, key: string): (r: Result<Value, Error>)
    ensures r.Failure? <==> Nullish(v)
  {
    match v
    case Undefined => Failure(TypeError)
    case Null => Failure(TypeError)
    case Object(fields) => Success(if key in fields then fields[key] else Undefined)
    case _ => Success(Undefined)
  }

  /** `v[0]`: a TypeError on `null`/`undefined`. */
  function Index0(v: Value): (r: Result<Value, Error>)
    ensures r.Failure? <==> Nullish(v)
  {
    match v
    case Undefined => Failure(TypeError)
    case Null => Failure(TypeError)
    case Array(items) => Success(if items == [] then Undefined else items[0])
    case Str(s) => Success(if s == [] then Undefined else Str([s[0]]))
    case Object(fields) => Success(if "0" in fields then fields["0"] else Undefined)
    case _ => Success(Undefined)
  }

  /** `v?.key`. */
  function OptMember(v: Value, key: string): Value {
    if Nullish(v) then Undefined else Member(v, key).value
  }

  /** `v?.[0]`. */
  function OptIndex0(v: Value): Value {
    if Nullish(v) then Undefined else Index0(v).value
  }

  /** `v || fallback`. */
  function Or(v: Value, fallback: Value): (r: Value)
    ensures Truthy(v) ==> r == v
    ensures !Truthy(v) ==> r == fallback
  {
    if Truthy(v) then v else fallback
  }

  /** `v ?? fallback`. */
  function Coalesce(v: Value, fallback: Value): (r: Value)
    ensures !Nullish(v) ==> r == v
    ensures Nullish(v) ==> r == fallback
  {
    if Nullish(v) then fallback else v
  }
}
