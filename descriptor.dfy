/**
 * The shape shared by the widget descriptors (`ww-config.js` files): an
 * ordered list of property definitions, each possibly carrying a `hidden`
 * rule, and a list of trigger events.  Editor labels, icons and
 * property-order hints are presentation metadata and are not represented.
 */
module Descriptor {
  import opened Wrappers
  import opened Js

  /** The body of a `hidden: content => …` arrow function: an expression
      over the content object built from property reads, literals and the
      JavaScript operators the descriptors use.  Strict comparisons and
      `includes` are against primitive literals, as in every rule. */
  datatype Expr =
    | Read(key: string)                      // content.key
    | Lit(v: Value)                          // a literal
    | NotOp(e: Expr)                         // !e
    | AndOp(left: Expr, right: Expr)         // left && right
    | OrOp(left: Expr, right: Expr)          // left || right
    | StrictEqOp(left: Expr, lit: Primitive)     // left === lit
    | StrictNeOp(left: Expr, lit: Primitive)     // left !== lit
    | IncludesOp(list: seq<Primitive>, e: Expr)  // [...].includes(e)

  /** What the arrow function returns for `content`. */
  function Eval(e: Expr, content: Content): Value {
    match e
    case Read(key) => Get(content, key)
    case Lit(v) => v
    case NotOp(e1) => Not(Eval(e1, content))
    case AndOp(l, r) => And(Eval(l, content), Eval(r, content))
    case OrOp(l, r) => Or(Eval(l, content), Eval(r, content))
    case StrictEqOp(l, lit) => StrictEq(Eval(l, content), lit)
    case StrictNeOp(l, lit) => StrictNe(Eval(l, content), lit)
    case IncludesOp(list, e1) => Includes(list, Eval(e1, content))
  }

  /** The content keys an expression reads. */
  function Reads(e: Expr): set<string> {
    match e
    case Read(key) => {key}
    case Lit(_) => {}
    case NotOp(e1) => Reads(e1)
    case AndOp(l, r) => Reads(l) + Reads(r)
    case OrOp(l, r) => Reads(l) + Reads(r)
    case StrictEqOp(l, _) => Reads(l)
    case StrictNeOp(l, _) => Reads(l)
    case IncludesOp(_, e1) => Reads(e1)
  }

  /** A rule's result depends on the content only through the keys it reads. */
  lemma {:induction false} EvalReadsOnly(e: Expr, c1: Content, c2: Content)
    requires forall k :: k in Reads(e) ==> Get(c1, k) == Get(c2, k)
    ensures Eval(e, c1) == Eval(e, c2)
  {
    match e
    case Read(_) =>
    case Lit(_) =>
    case NotOp(e1) => EvalReadsOnly(e1, c1, c2);
    case AndOp(l, r) => EvalReadsOnly(l, c1, c2); EvalReadsOnly(r, c1, c2);
    case OrOp(l, r) => EvalReadsOnly(l, c1, c2); EvalReadsOnly(r, c1, c2);
    case StrictEqOp(l, _) => EvalReadsOnly(l, c1, c2);
    case StrictNeOp(l, _) => EvalReadsOnly(l, c1, c2);
    case IncludesOp(_, e1) => EvalReadsOnly(e1, c1, c2);
  }

  /** The editor control types the modelled descriptors use. */
  datatype Kind = Text | LongText | Number | OnOff | TextSelect | Array | Object

  /** One entry of a descriptor's `properties`.  `bindable` is false where
      the descriptor leaves it out; `defaultValue` is None where it leaves
      it out; `choices` are the `value`s of a TextSelect's option list, in
      order, and empty for other kinds; `hidden` is the visibility rule. */
  datatype Property = Property(
    key: string,
    kind: Kind,
    section: string,
    bindable: bool,
    defaultValue: Option<Value>,
    choices: seq<Value>,
    hidden: Option<Expr>)

  /** A declared default has the shape its control edits: a boolean for a
      switch, a number for a number field, a string for a text field, one of
      the options for a select, a list for an array and an object for an
      object.  A property without a default fits. */
  predicate DefaultFitsKind(p: Property) {
    match p.defaultValue
    case None => true
    case Some(v) =>
      match p.kind
      case Text => v.Str?
      case LongText => v.Str?
      case Number => v.Int? || v.Frac?
      case OnOff => v.Bool?
      case TextSelect => v in p.choices
      case Array => v.Arr?
      case Object => v.Rec?
  }

  /** One entry of `triggerEvents`; `isDefault` is false where `default` is left out. */
  datatype TriggerEvent = TriggerEvent(name: string, isDefault: bool)

  /** How a property's `hidden` result is read: a property without a rule is
      shown, one with a rule is hidden when the rule's result is truthy. */
  predicate IsHidden(p: Property, content: Content) {
    p.hidden.Some? && Truthy(Eval(p.hidden.value, content))
  }

  /** The property keys, in declaration order. */
  function Keys(props: seq<Property>): (keys: seq<string>)
    ensures |keys| == |props|
  {
    seq(|props|, i requires 0 <= i < |props| => props[i].key)
  }

  predicate UniqueKeys(props: seq<Property>) {
    forall i, j :: 0 <= i < j < |props| ==> props[i].key != props[j].key
  }

  /** Every key a rule reads is the key of another property of the same descriptor. */
  predicate RuleReadsSiblings(props: seq<Property>, p: Property) {
    p.hidden.Some? ==>
      forall k :: k in Reads(p.hidden.value) ==>
        k != p.key && k in Keys(props)
  }

  /** A select property whose default is one of its own choices. */
  predicate DefaultIsChoice(p: Property) {
    p.defaultValue.Some? && p.defaultValue.value in p.choices
  }

  /** A content object that holds `p`'s declared default under `p`'s key. */
  predicate HoldsDefault(content: Content, p: Property) {
    p.defaultValue.Some? && Get(content, p.key) == p.defaultValue.value
  }

  /** The names of the events marked `default: true`, in order. */
  function DefaultEvents(events: seq<TriggerEvent>): (names: seq<string>)
    ensures |names| <= |events|
    ensures forall n :: n in names <==> exists e :: e in events && e.isDefault && e.name == n
  {
    if events == [] then []
    else (if events[0].isDefault then [events[0].name] else []) + DefaultEvents(events[1..])
  }

  /** Listing the events of two lists in turn lists the default names of
      the first, then those of the second: the names keep the events' order. */
  lemma {:induction false} DefaultEventsAppend(a: seq<TriggerEvent>, b: seq<TriggerEvent>)
    ensures DefaultEvents(a + b) == DefaultEvents(a) + DefaultEvents(b)
  {
    if a == [] {
      assert a + b == b;
    } else {
      assert (a + b)[0] == a[0] && (a + b)[1..] == a[1..] + b;
      DefaultEventsAppend(a[1..], b);
    }
  }

  /** A property's visibility depends on the content only through the keys
      its rule reads. */
  lemma VisibilityReadsOnly(p: Property, c1: Content, c2: Content)
    requires p.hidden.Some? ==> forall k :: k in Reads(p.hidden.value) ==> Get(c1, k) == Get(c2, k)
    ensures IsHidden(p, c1) == IsHidden(p, c2)
  {
    if p.hidden.Some? {
      EvalReadsOnly(p.hidden.value, c1, c2);
    }
  }
}
