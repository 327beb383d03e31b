/**
 * `element` (wwLib/index.js): wraps a value as a WeWeb element
 * descriptor.  An object-typed value (`typeof value === 'object'`, so
 * `null` and arrays too) is spread after `isWwObject: true`; any other
 * value becomes the element's `type`.  The deprecation warning it logs is
 * not modelled.
 */
module Element {
  import opened Js

  /** The decimal digit character of `d`. */
  function Digit(d: int): char
    requires 0 <= d < 10
  {
    "0123456789"[d]
  }

  /** The property key under which an array spread stores index `n`:
      `n` written in decimal. */
  function Decimal(n: nat): (s: string)
    ensures |s| > 0
    ensures n < 10 <==> |s| == 1
    ensures s[|s| - 1] == Digit(n % 10)
    decreases n
  {
    if n < 10 then [Digit(n)] else Decimal(n / 10) + [Digit(n % 10)]
  }

  /** Distinct indices give distinct keys. */
  lemma {:induction false} DecimalInjective(m: nat, n: nat)
    requires Decimal(m) == Decimal(n)
    ensures m == n
    decreases m
  {
    assert Digit(m % 10) == Digit(n % 10);
    assert m % 10 == n % 10 by {
      assert forall a, b :: 0 <= a < 10 && 0 <= b < 10 && Digit(a) == Digit(b) ==> a == b;
    }
    if m >= 10 {
      var sm, sn := Decimal(m), Decimal(n);
      assert Decimal(m / 10) == sm[..|sm| - 1] == sn[..|sn| - 1] == Decimal(n / 10);
      DecimalInjective(m / 10, n / 10);
    }
  }

  /** The own enumerable properties of an array spread into an object. */
  function Spread(items: seq<Value>): (fields: map<string, Value>)
    ensures forall i :: 0 <= i < |items| ==> Decimal(i) in fields && fields[Decimal(i)] == items[i]
    ensures forall k :: k in fields ==> exists i :: 0 <= i < |items| && k == Decimal(i)
  {
    assert forall i, j :: 0 <= i < |items| && 0 <= j < |items| && Decimal(i) == Decimal(j) ==> i == j by {
      forall i, j | 0 <= i < |items| && 0 <= j < |items| && Decimal(i) == Decimal(j)
        ensures i == j
      {
        DecimalInjective(i, j);
      }
    }
    map i | 0 <= i < |items| :: Decimal(i) := items[i]
  }

  /** `isWwObject` is no index key, so an array's elements and the marker
      never collide. */
  lemma MarkerIsNoIndex(n: nat)
    ensures Decimal(n) != "isWwObject"
  {
    if n >= 10 {
      var s := Decimal(n);
      assert s[|s| - 1] == Digit(n % 10);
    }
  }

  lemma SpreadHasNoMarker(items: seq<Value>)
    ensures "isWwObject" !in Spread(items)
  {
    forall k | k in Spread(items)
      ensures k != "isWwObject"
    {
      var i :| 0 <= i < |items| && k == Decimal(i);
      MarkerIsNoIndex(i);
    }
  }

  const Marker: map<string, Value> := map["isWwObject" := Bool(true)]

  /** The model of `element`.  In `{ isWwObject: true, ...value }` the
      spread comes second, so a field `isWwObject` of `value` wins. */
  function Element(value: Value): (r: Value)
    ensures r.Rec? && "isWwObject" in r.fields
    ensures !value.Rec? || "isWwObject" !in value.fields ==> r.fields["isWwObject"] == Bool(true)
    ensures value.Rec? ==> r.fields.Keys == value.fields.Keys + {"isWwObject"} &&
                           forall k :: k in value.fields ==> r.fields[k] == value.fields[k]
    ensures value.Arr? ==> forall i :: 0 <= i < |value.items| ==>
                             Decimal(i) in r.fields && r.fields[Decimal(i)] == value.items[i]
    ensures value.Arr? ==> forall k :: k in r.fields && k != "isWwObject" ==>
                             exists i :: 0 <= i < |value.items| && k == Decimal(i)
    ensures value.Null? ==> r.fields == Marker
    ensures !IsObjectType(value) ==> r.fields.Keys == {"isWwObject", "type"} && r.fields["type"] == value
  {
    match value
    case Rec(fields) => Rec(Marker + fields)
    case Arr(items) => SpreadHasNoMarker(items); Rec(Marker + Spread(items))
    case Null => Rec(Marker)
    case _ => Rec(Marker["type" := value])
  }

  /** Wrapping an element again changes nothing: the result is already an
      object carrying the marker. */
  lemma ElementIdempotent(value: Value)
    ensures Element(Element(value)) == Element(value)
  {
    var r := Element(value);
    assert Marker + r.fields == r.fields;
  }
}
