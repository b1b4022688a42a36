/** The scalar JavaScript values that the modelled code copies from one
    object into another without looking inside them, and the truthiness
    rule that `||`, `!` and a bare `if (x)` apply to them. */
module JsValues {

  /** A leaf of a JSON payload or of a JavaScript object. Numbers are
      mathematical reals: `NaN` and the infinities are not modelled. */
  datatype Value =
    | Undefined
    | Null
    | Bool(b: bool)
    | Num(n: real)
    | Str(s: string)

  /** JavaScript truthiness: `undefined`, `null`, `false`, `0` and `""`
      are falsy, every other value is truthy. */
  predicate Truthy(v: Value) {
    match v
    case Undefined => false
    case Null => false
    case Bool(b) => b
    case Num(n) => n != 0.0
    case Str(s) => s != ""
  }

  /** JavaScript's `a || b`: the left operand when it is truthy, else the
      right operand, returned as is (not coerced to a boolean). */
  function Or(a: Value, b: Value): (r: Value)
    ensures r == a || r == b
    ensures Truthy(a) ==> r == a
    ensures !Truthy(a) ==> r == b
    ensures Truthy(r) <==> Truthy(a) || Truthy(b)
  {
    if Truthy(a) then a else b
  }
}
