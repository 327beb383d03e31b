/** The Accordion widget descriptor (Accordion/ww-config.js). */
module Accordion {
  import opened Wrappers
  import opened Js
  import opened Descriptor

  const TriggerEvents: seq<TriggerEvent> := [TriggerEvent("trigger-event", true)]

  function Section(n: string): Value {
    Rec(map["title" := Str("Section " + n), "content" := Str("Content for section " + n)])
  }

  const DefaultItems: seq<Value> := [Section("1"), Section("2"), Section("3")]

  const Items := Property("items", Kind.Array, "content", true, Some(Arr(DefaultItems)), [], None)
  const Type := Property("type", TextSelect, "settings", true, Some(Str("single")),
    [Str("single"), Str("multiple")], None)
  const Collapsible := Property("collapsible", OnOff, "settings", true, Some(Bool(true)), [],
    Some(StrictNeOp(Read("type"), Str("single"))))
  const DefaultOpenItems := Property("defaultOpenItems", Kind.Array, "settings", true, Some(Arr([])), [], None)

  const Properties: seq<Property> := [Items, Type, Collapsible, DefaultOpenItems]

  /** `collapsible` is shown exactly when `type` is the string `single`:
      `multiple` and a missing type both hide it. */
  lemma CollapsibleVisibility(content: Content)
    ensures IsHidden(Collapsible, content) <==> Get(content, "type") != Str("single")
    ensures Get(content, "type") == Str("multiple") ==> IsHidden(Collapsible, content)
    ensures "type" !in content ==> IsHidden(Collapsible, content)
  {
    assert Eval(Read("type"), content) == Get(content, "type");
    assert Eval(Collapsible.hidden.value, content) == StrictNe(Get(content, "type"), Str("single"));
  }

  /** With `type` at its default (`single`) `collapsible` is shown, and it
      defaults to true. */
  lemma DefaultsVisibility(content: Content)
    requires HoldsDefault(content, Type)
    ensures !IsHidden(Collapsible, content)
    ensures Collapsible.defaultValue == Some(Bool(true))
  {
    CollapsibleVisibility(content);
  }

  /** Items, type and the default open items have no rule. */
  lemma UnconditionalProperties(content: Content)
    ensures forall p :: p in [Items, Type, DefaultOpenItems] ==> p.hidden.None? && !IsHidden(p, content)
  {
  }

  /** Three sections are declared by default, each an object with a title
      and a content, and none is open by default. */
  lemma DefaultContents()
    ensures |DefaultItems| == 3
    ensures forall i :: 0 <= i < |DefaultItems| ==>
              DefaultItems[i].Rec? && DefaultItems[i].fields.Keys == {"title", "content"}
    ensures DefaultOpenItems.defaultValue == Some(Arr([]))
  {
  }

  /** No two properties share a key, and the rule reads only the type. */
  lemma KeysAndRules()
    ensures UniqueKeys(Properties)
    ensures RuleReadsSiblings(Properties, Collapsible)
  {
    assert Keys(Properties)[1] == Type.key;
  }

  /** The one trigger event is the default; the default type is a choice. */
  lemma EventsAndChoices()
    ensures DefaultEvents(TriggerEvents) == ["trigger-event"] && |TriggerEvents| == 1
    ensures DefaultIsChoice(Type)
  {
  }

  /** Every declared default has the shape of its control: switches default
      to booleans, text fields to strings, numbers to numbers, lists to
      lists, and each select to one of its options. */
  lemma DefaultsFitKinds()
    ensures forall p :: p in Properties ==> DefaultFitsKind(p)
  {
  }
}
