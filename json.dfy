/** The JSON values the views and serializers build out of Python dicts, lists, strings and numbers. */
module Json {
  import opened Models

  datatype Value =
    | Null
    | Int(i: int)
    | Real(r: real)
    | Str(s: string)
    | List(items: seq<Value>)
    | Object(fields: map<string, Value>)

  /** Python truthiness: None, 0, 0.0, "", [] and {} are false, everything else is true. */
  predicate Truthy(v: Value) {
    match v
    case Null => false
    case Int(i) => i != 0
    case Real(r) => r != 0.0
    case Str(s) => s != ""
    case List(items) => items != []
    case Object(fields) => fields != map[]
  }

  /**
   * Python's `a or b`: one of the two operands, truthy exactly when either
   * operand is, and the last operand whenever it is falsy.
   */
  function Or(a: Value, b: Value): (r: Value)
    ensures r == a || r == b
    ensures Truthy(r) <==> Truthy(a) || Truthy(b)
    ensures !Truthy(r) ==> r == b
  {
    if Truthy(a) then a else b
  }

  /** A nullable text column: `None` is rendered as null. */
  function Nullable(s: Option<string>): Value {
    match s
    case None => Null
    case Some(t) => Str(t)
  }
}
