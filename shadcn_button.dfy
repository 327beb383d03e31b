/** The button descriptor at the repository root (ww-config.js), whose
    variants include an icon-only and a loading state. */
module ShadcnButton {
  import opened Wrappers
  import opened Js
  import opened Descriptor

  const TriggerEvents: seq<TriggerEvent> := [TriggerEvent("trigger-event", true)]

  const TextProp := Property("text", Text, "content", true, Some(Str("Button")), [], None)
  const Variant := Property("variant", TextSelect, "style", false, Some(Str("default")),
    [Str("default"), Str("destructive"), Str("outline"), Str("secondary"), Str("ghost"), Str("link"),
     Str("icon"), Str("loading")], None)
  const Size := Property("size", TextSelect, "style", false, Some(Str("default")),
    [Str("sm"), Str("default"), Str("lg")], None)
  const ShowIcon := Property("showIcon", OnOff, "content", true, Some(Bool(false)), [],
    Some(IncludesOp([Str("icon"), Str("loading")], Read("variant"))))
  const IconName := Property("iconName", Text, "content", true, None, [],
    Some(AndOp(NotOp(Read("showIcon")), StrictNeOp(Read("variant"), Str("icon")))))
  const Disabled := Property("disabled", OnOff, "behavior", true, Some(Bool(false)), [], None)
  const HtmlType := Property("type", TextSelect, "behavior", false, Some(Str("button")),
    [Str("button"), Str("submit"), Str("reset")], None)
  const LoadingText := Property("loadingText", Text, "content", true, Some(Str("Loading...")), [],
    Some(StrictNeOp(Read("variant"), Str("loading"))))

  const Properties: seq<Property> := [
    TextProp, Variant, Size, ShowIcon, IconName, Disabled, HtmlType, LoadingText
  ]

  /** The show-icon switch is hidden exactly for the icon-only and loading variants. */
  lemma ShowIconVisibility(content: Content)
    ensures Eval(ShowIcon.hidden.value, content).Bool?
    ensures IsHidden(ShowIcon, content)
        <==> Get(content, "variant") == Str("icon") || Get(content, "variant") == Str("loading")
  {
    assert Eval(Read("variant"), content) == Get(content, "variant");
  }

  /** The icon name is hidden exactly when `showIcon` is falsy and the
      variant is not icon-only; the icon-only variant always shows it. */
  lemma IconNameVisibility(content: Content)
    ensures Eval(IconName.hidden.value, content).Bool?
    ensures IsHidden(IconName, content)
        <==> !Truthy(Get(content, "showIcon")) && Get(content, "variant") != Str("icon")
    ensures Get(content, "variant") == Str("icon") ==> !IsHidden(IconName, content)
  {
    var showIcon, variant := Get(content, "showIcon"), Get(content, "variant");
    assert Eval(Read("showIcon"), content) == showIcon;
    assert Eval(Read("variant"), content) == variant;
    assert Eval(NotOp(Read("showIcon")), content) == Not(showIcon);
    assert Eval(StrictNeOp(Read("variant"), Str("icon")), content) == StrictNe(variant, Str("icon"));
    assert Eval(IconName.hidden.value, content) == And(Not(showIcon), StrictNe(variant, Str("icon")));
  }

  /** The loading text is shown only for the loading variant. */
  lemma LoadingTextVisibility(content: Content)
    ensures Eval(LoadingText.hidden.value, content).Bool?
    ensures !IsHidden(LoadingText, content) <==> Get(content, "variant") == Str("loading")
  {
    assert Eval(Read("variant"), content) == Get(content, "variant");
  }

  /** In the loading variant the show-icon switch gives way to the loading text. */
  lemma LoadingVariantSwapsControls(content: Content)
    requires Get(content, "variant") == Str("loading")
    ensures IsHidden(ShowIcon, content) && !IsHidden(LoadingText, content)
  {
    ShowIconVisibility(content);
    LoadingTextVisibility(content);
  }

  /** With the variant at its default the loading text is hidden and the
      show-icon switch is shown. */
  lemma DefaultsVisibility(content: Content)
    requires HoldsDefault(content, Variant)
    ensures !IsHidden(ShowIcon, content) && IsHidden(LoadingText, content)
  {
    ShowIconVisibility(content);
    LoadingTextVisibility(content);
  }

  /** Text, variant, size, disabled and type have no rule. */
  lemma UnconditionalProperties(content: Content)
    ensures forall p :: p in [TextProp, Variant, Size, Disabled, HtmlType]
                ==> p.hidden.None? && !IsHidden(p, content)
  {
  }

  /** No two properties share a key. */
  lemma KeysAreUnique()
    ensures UniqueKeys(Properties)
  {
  }

  /** Each rule reads only properties declared beside it. */
  lemma RulesReadDeclaredSiblings()
    ensures forall p :: p in [ShowIcon, IconName, LoadingText] ==> RuleReadsSiblings(Properties, p)
  {
    assert Keys(Properties)[1] == Variant.key && Keys(Properties)[3] == ShowIcon.key;
  }

  /** The one trigger event is the default; the defaults of variant, size
      and type are among their choices. */
  lemma EventsAndChoices()
    ensures DefaultEvents(TriggerEvents) == ["trigger-event"] && |TriggerEvents| == 1
    ensures DefaultIsChoice(Variant) && DefaultIsChoice(Size) && DefaultIsChoice(HtmlType)
  {
  }

  /** Every declared default has the shape of its control: switches default
      to booleans, text fields to strings, numbers to numbers, lists to
      lists, and each select to one of its options. */
  lemma DefaultsFitKinds()
    ensures forall p :: p in Properties ==> DefaultFitsKind(p)
  {
  }
}
