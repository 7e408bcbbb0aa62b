/**
 * The few JavaScript value semantics the product store depends on: the JSON
 * values a request body can carry, the numbers that `parseFloat` and
 * `parseInt` produce, and truthiness (the `!x` test).
 */
module Js {

  /** A JavaScript number, written as an exact real (+0 and -0 are both `Finite(0.0)`). */
  datatype Number = Finite(r: real) | NaN | Infinity | NegativeInfinity

  /**
   * A JSON value as the body parser delivers it. `Num` holds the double the
   * parser produced: a literal too large for a double parses to an infinity,
   * one too small to zero. Arrays and objects keep their contents, so a
   * coercion can treat `[5]`, `{}` and `{"toString": 1}` differently; object
   * members are kept in the order they were written.
   */
  datatype Value =
    | Null
    | Bool(b: bool)
    | Num(n: Number)
    | Str(s: string)
    | Arr(items: seq<Value>)
    | Obj(members: seq<(string, Value)>)

  /** The JSON values JavaScript treats as false (a parsed number is never NaN, but NaN is falsy too). */
  const Falsy: set<Value> := {Null, Bool(false), Num(Finite(0.0)), Num(NaN), Str("")}

  /** JavaScript truthiness of a JSON value; `!v` holds exactly when this is false. */
  predicate Truthy(v: Value)
    ensures Truthy(v) <==> v !in Falsy
  {
    match v
    case Null => false
    case Bool(b) => b
    case Num(n) => n != Finite(0.0) && n != NaN
    case Str(s) => s != ""
    case Arr(_) => true
    case Obj(_) => true
  }
}
