/** The input records the predictors read.
  *
  * A request body is a Python dict of JSON values. Where the source inspects
  * the dynamic type of a value (input validation, the diabetes predictor) the
  * model keeps it as a `Value`; where the source only does arithmetic and
  * comparisons it keeps a numeric record in which a flag is 0 or 1 (Python's
  * `bool` is an `int`). */
module Records {

  /** A dynamically typed Python value as it arrives from JSON. */
  datatype Value = Int(i: int) | Float(f: real) | Bool(b: bool) | Str(s: string) | NoneValue

  /** Python truthiness of a value: the test performed by `if value:`. */
  predicate Truthy(v: Value)
  {
    match v
    case Int(i) => i != 0
    case Float(f) => f != 0.0
    case Bool(b) => b
    case Str(s) => s != ""
    case NoneValue => false
  }

  /** A value that takes part in arithmetic and ordering (`int`, `float` and `bool`). */
  predicate IsNumber(v: Value)
  {
    v.Int? || v.Float? || v.Bool?
  }

  /** The number a numeric value stands for (`True` is 1). */
  function NumberOf(v: Value): (r: real)
    requires IsNumber(v)
    ensures v.Bool? ==> (r == 1.0 <==> v.b) && (r == 0.0 <==> !v.b)
  {
    match v
    case Int(i) => i as real
    case Float(f) => f
    case Bool(b) => if b then 1.0 else 0.0
  }

  /** A record whose values are all numbers; a flag is 0 or 1. */
  type Record = map<string, real>

  /** `data.get(key, default)` on a numeric record. */
  function Get(data: Record, key: string, default: real): real
  {
    if key in data then data[key] else default
  }

  /** `if data.get(key, False):` on a numeric record (a number is truthy iff it is not 0). */
  predicate Flag(data: Record, key: string)
  {
    Get(data, key, 0.0) != 0.0
  }

  /** `data.get(key, default)` on a record of dynamically typed values. */
  function GetValue(data: map<string, Value>, key: string, default: Value): Value
  {
    if key in data then data[key] else default
  }

  function Min(a: real, b: real): (r: real)
    ensures r <= a && r <= b && (r == a || r == b)
  {
    if a <= b then a else b
  }

  function Max(a: real, b: real): (r: real)
    ensures r >= a && r >= b && (r == a || r == b)
  {
    if a >= b then a else b
  }

  function Abs(x: real): (r: real)
    ensures r >= 0.0 && (r == x || r == -x)
  {
    if x < 0.0 then -x else x
  }

  function MinInt(a: int, b: int): (r: int)
    ensures r <= a && r <= b && (r == a || r == b)
  {
    if a <= b then a else b
  }

  /** The number of conditions that hold. */
  function CountTrue(conditions: seq<bool>): (n: nat)
    ensures n <= |conditions|
    ensures n == 0 <==> forall k :: 0 <= k < |conditions| ==> !conditions[k]
    ensures n == |conditions| <==> forall k :: 0 <= k < |conditions| ==> conditions[k]
  {
    if conditions == [] then 0
    else (if conditions[0] then 1 else 0) + CountTrue(conditions[1..])
  }
}
