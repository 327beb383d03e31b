/** The Badge widget descriptor (Badge/ww-config.js). */
module Badge {
  import opened Wrappers
  import opened Js
  import opened Descriptor

  const TriggerEvents: seq<TriggerEvent> := [TriggerEvent("click", true), TriggerEvent("dismiss", false)]

  const TextProp := Property("text", Text, "content", true, Some(Str("Badge")), [], None)
  const Variant := Property("variant", TextSelect, "style", true, Some(Str("default")),
    [Str("default"), Str("secondary"), Str("destructive"), Str("outline"), Str("success"), Str("warning")], None)
  const Size := Property("size", TextSelect, "style", true, Some(Str("default")),
    [Str("sm"), Str("default"), Str("lg")], None)
  const Dismissible := Property("dismissible", OnOff, "settings", true, Some(Bool(false)), [], None)
  const ShowIcon := Property("showIcon", OnOff, "content", true, Some(Bool(false)), [], None)
  const IconName := Property("iconName", Text, "content", true, Some(Str("star")), [],
    Some(NotOp(Read("showIcon"))))
  const IconPosition := Property("iconPosition", TextSelect, "content", true, Some(Str("left")),
    [Str("left"), Str("right")], Some(NotOp(Read("showIcon"))))

  const Properties: seq<Property> := [TextProp, Variant, Size, Dismissible, ShowIcon, IconName, IconPosition]

  /** Icon name and icon position are shown and hidden together, on the
      truthiness of `showIcon`. */
  lemma IconFieldsVisibility(content: Content)
    ensures IsHidden(IconName, content) <==> !Truthy(Get(content, "showIcon"))
    ensures IsHidden(IconPosition, content) == IsHidden(IconName, content)
  {
    assert Eval(Read("showIcon"), content) == Get(content, "showIcon");
  }

  /** With `showIcon` at its default (false) both icon fields are hidden. */
  lemma DefaultsVisibility(content: Content)
    requires HoldsDefault(content, ShowIcon)
    ensures IsHidden(IconName, content) && IsHidden(IconPosition, content)
  {
    IconFieldsVisibility(content);
  }

  /** Dismissible has no rule, and changing it changes the visibility of no
      property: the icon rules do not read it. */
  lemma {:induction false} DismissibleIsIndependent(content: Content, v: Value)
    ensures Dismissible.hidden.None?
    ensures forall p :: p in Properties ==> IsHidden(p, content) == IsHidden(p, content["dismissible" := v])
  {
    forall p | p in Properties
      ensures IsHidden(p, content) == IsHidden(p, content["dismissible" := v])
    {
      VisibilityReadsOnly(p, content, content["dismissible" := v]);
    }
  }

  /** Text, variant, size and the two switches have no rule. */
  lemma UnconditionalProperties(content: Content)
    ensures forall p :: p in [TextProp, Variant, Size, Dismissible, ShowIcon]
                ==> p.hidden.None? && !IsHidden(p, content)
  {
  }

  /** No two properties share a key. */
  lemma KeysAreUnique()
    ensures UniqueKeys(Properties)
  {
  }

  /** Both rules read only the switch declared beside them. */
  lemma RulesReadDeclaredSiblings()
    ensures RuleReadsSiblings(Properties, IconName) && RuleReadsSiblings(Properties, IconPosition)
  {
    assert Keys(Properties)[4] == ShowIcon.key;
  }

  /** Of the two trigger events only `click` is the default; the icon
      position defaults to `left`, one of its two choices, and the icon name
      to `star`. */
  lemma EventsAndChoices()
    ensures DefaultEvents(TriggerEvents) == ["click"]
    ensures DefaultIsChoice(IconPosition) && IconPosition.choices == [Str("left"), Str("right")]
    ensures IconPosition.defaultValue == Some(Str("left")) && IconName.defaultValue == Some(Str("star"))
    ensures DefaultIsChoice(Variant) && DefaultIsChoice(Size)
  {
  }

  /** Every declared default has the shape of its control: switches default
      to booleans, text fields to strings, numbers to numbers, lists to
      lists, and each select to one of its options. */
  lemma DefaultsFitKinds()
    ensures forall p :: p in Properties ==> DefaultFitsKind(p)
  {
  }
}
