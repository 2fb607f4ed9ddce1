/** The slice of JavaScript value semantics the components rely on:
    truthiness, `||` and `&&`, default parameters, property access with
    and without optional chaining, and the string conversion that
    `Array.prototype.join` applies to its elements.
    Numbers are integers only; floating point and NaN are not modelled. */
module Js {

  /** A JavaScript value. `Elem` is a rendered element (an opaque object,
      as a React node is); `Fn` is a function value such as a callback. */
  datatype Value =
    | Undefined
    | Null
    | Bool(b: bool)
    | Num(n: int)
    | Str(s: string)
    | Obj(fields: map<string, Value>)
    | Elem(tag: string)
    | Fn(name: string)

  datatype Option<+T> = None | Some(value: T)

  /** The outcome of an expression that may throw a TypeError. */
  datatype Result<+T> = Ok(value: T) | TypeError

  /** JavaScript truthiness (NaN is not modelled). */
  predicate Truthy(v: Value) {
    match v
    case Undefined => false
    case Null => false
    case Bool(b) => b
    case Num(n) => n != 0
    case Str(s) => s != ""
    case Obj(_) => true
    case Elem(_) => true
    case Fn(_) => true
  }

  /** The `typeof` operator; note that `typeof null` is "object". */
  function TypeOf(v: Value): string {
    match v
    case Undefined => "undefined"
    case Null => "object"
    case Bool(_) => "boolean"
    case Num(_) => "number"
    case Str(_) => "string"
    case Obj(_) => "object"
    case Elem(_) => "object"
    case Fn(_) => "function"
  }

  /** Loose equality with null: `v == null`. */
  predicate IsNullish(v: Value) {
    v.Undefined? || v.Null?
  }

  /** `a || b` */
  function Or(a: Value, b: Value): Value {
    if Truthy(a) then a else b
  }

  /** `a && b` */
  function And(a: Value, b: Value): Value {
    if Truthy(a) then b else a
  }

  /** A default parameter `p = d`: the default replaces `undefined` only. */
  function Default(arg: Value, d: Value): Value {
    if arg.Undefined? then d else arg
  }

  /** Property access `v[key]`: throws on null and undefined, and yields
      undefined for a missing key or a primitive. */
  function Get(v: Value, key: string): Result<Value> {
    match v
    case Undefined => TypeError
    case Null => TypeError
    case Obj(fields) => Ok(if key in fields then fields[key] else Undefined)
    case _ => Ok(Undefined)
  }

  /** Optional chaining `v?.key`: never throws. */
  function OptGet(v: Value, key: string): Value {
    match v
    case Obj(fields) => if key in fields then fields[key] else Undefined
    case _ => Undefined
  }

  /** An object literal with a single property. */
  function Record(key: string, v: Value): Value {
    Obj(map[key := v])
  }

  function DigitChar(d: nat): char
    requires d < 10
  {
    "0123456789"[d]
  }

  function Decimal(n: nat): string
    decreases n
  {
    if n < 10 then [DigitChar(n)] else Decimal(n / 10) + [DigitChar(n % 10)]
  }

  /** The string an array element becomes in `Array.prototype.join`:
      null and undefined become the empty string. */
  function JoinText(v: Value): string {
    match v
    case Undefined => ""
    case Null => ""
    case Bool(b) => if b then "true" else "false"
    case Num(n) => if n < 0 then "-" + Decimal(-n) else Decimal(n)
    case Str(s) => s
    case Obj(_) => "[object Object]"
    case Elem(_) => "[object Object]"
    case Fn(name) => name  // the name stands in for the function's source text
  }

  lemma GetSucceedsOnTruthy(v: Value, key: string)
    requires Truthy(v)
    ensures Get(v, key) == Ok(OptGet(v, key))
  {
  }
}
