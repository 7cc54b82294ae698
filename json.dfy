/** The JavaScript values that flow through the application: parsed JSON,
    request bodies, session records kept by the client. */
module Json {

  /** A JavaScript value as far as this application inspects it.
      `Undefined` stands for a missing property; numbers are reals (NaN and
      the infinities are not modelled). An object's key order is not kept. */
  datatype Value =
    | Undefined
    | Null
    | Bool(b: bool)
    | Num(n: real)
    | Str(s: string)
    | Arr(items: seq<Value>)
    | Obj(fields: map<string, Value>)

  /** JavaScript truthiness: what `if (v)`, `!v` and `v || w` test. */
  predicate Truthy(v: Value)
  {
    match v
    case Undefined => false
    case Null => false
    case Bool(b) => b
    case Num(n) => n != 0.0
    case Str(s) => s != ""
    case Arr(_) => true
    case Obj(_) => true
  }

  /** `typeof v === 'object'`: true for null, arrays and objects. */
  predicate IsObjectType(v: Value)
  {
    v.Null? || v.Arr? || v.Obj?
  }

  /** `v?.key` for a property that is not `length`: a missing key, and any
      value that is not an object, give `undefined`. */
  function Get(v: Value, key: string): (r: Value)
    ensures !v.Obj? ==> r == Undefined
    ensures v.Obj? && key !in v.fields ==> r == Undefined
  {
    if v.Obj? && key in v.fields then v.fields[key] else Undefined
  }

  /** `a || b`: the first operand when it is truthy, the second otherwise. */
  function Or(a: Value, b: Value): (r: Value)
    ensures Truthy(a) ==> r == a
    ensures !Truthy(a) ==> r == b
    ensures Truthy(r) <==> Truthy(a) || Truthy(b)
  {
    if Truthy(a) then a else b
  }
}
