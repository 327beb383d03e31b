/** Option and Result, for lookups that may miss and operations that may throw. */
module Wrappers {

  datatype Option<+T> = None | Some(value: T) {
    function GetOr(default: T): T {
      match this
      case Some(v) => v
      case None => default
    }
  }

  datatype Result<+T, +E> = Success(value: T) | Failure(error: E)
}

/**
 * JavaScript values as the modelled code observes them, and the few
 * operators the widget descriptors and the runtime helpers apply to them.
 */
module Js {

  /** A JavaScript value without identity.
      Numbers are split in two: `Int` is a number with an integral value
      (`0` and `-0` are both `Int(0)`), `Frac` a finite number with a
      fractional part, kept as the literal that wrote it (`1.777`) and only
      compared for equality.  `Arr` and `Rec` are array and object values
      whose identity the modelled code never observes (descriptor literals,
      content maps). */
  datatype Value =
    | Undefined
    | Null
    | Bool(b: bool)
    | Int(i: int)
    | Frac(literal: string)
    | Str(s: string)
    | Arr(items: seq<Value>)
    | Rec(fields: map<string, Value>)

  /** A value that is not an object.  Strict equality against such a value
      compares values; against an array or object it would compare identity,
      which the model does not represent. */
  type Primitive = v: Value | !v.Arr? && !v.Rec? witness Undefined

  /** JavaScript truthiness: `undefined`, `null`, `false`, `0` and `''` are falsy. */
  predicate Truthy(v: Value) {
    match v
    case Undefined => false
    case Null => false
    case Bool(b) => b
    case Int(i) => i != 0
    case Frac(_) => true
    case Str(s) => s != ""
    case Arr(_) => true
    case Rec(_) => true
  }

  predicate IsNullish(v: Value) {
    v.Undefined? || v.Null?
  }

  /** What `typeof v === 'object'` answers (true for `null`). */
  predicate IsObjectType(v: Value) {
    v.Null? || v.Arr? || v.Rec?
  }

  /** The content object of a widget instance: property key to current value. */
  type Content = map<string, Value>

  /** `content.key`: a missing key reads as `undefined`. */
  function Get(content: Content, key: string): Value {
    if key in content then content[key] else Undefined
  }

  /** `!v`.  The ensures of this and the following operators state the
      JavaScript semantics the rules are read with; the visibility lemmas
      are the properties proved from them. */
  function Not(v: Value): (r: Value)
    ensures r.Bool? && (r.b <==> !Truthy(v))
  {
    Bool(!Truthy(v))
  }

  /** `a && b`: the left operand when it is falsy, else the right one. */
  function And(a: Value, b: Value): (r: Value)
    ensures Truthy(r) <==> Truthy(a) && Truthy(b)
    ensures r == a || r == b
  {
    if Truthy(a) then b else a
  }

  /** `a || b`: the left operand when it is truthy, else the right one. */
  function Or(a: Value, b: Value): (r: Value)
    ensures Truthy(r) <==> Truthy(a) || Truthy(b)
    ensures r == a || r == b
  {
    if Truthy(a) then a else b
  }

  /** `a === b` where `b` is a primitive literal: strict equality with a
      primitive is equality of the values. */
  function StrictEq(a: Value, b: Primitive): (r: Value)
    ensures r.Bool? && (Truthy(r) <==> a == b)
  {
    Bool(a == b)
  }

  /** `a !== b` for a primitive literal `b`. */
  function StrictNe(a: Value, b: Primitive): (r: Value)
    ensures r == Not(StrictEq(a, b))
  {
    Bool(a != b)
  }

  /** The one exception the modelled code can raise: a property read on
      `undefined` or `null`, or iteration over a non-iterable. */
  datatype Exception = TypeError

  /** `list.includes(v)` over a list of primitive literals. */
  function Includes(list: seq<Primitive>, v: Value): (r: Value)
    ensures r.Bool? && (Truthy(r) <==> exists i :: 0 <= i < |list| && list[i] == v)
  {
    Bool(v in list)
  }
}
