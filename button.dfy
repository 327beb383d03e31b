/** The Button widget descriptor (Button/ww-config.js), whose loading
    state is a separate switch. */
module Button {
  import opened Wrappers
  import opened Js
  import opened Descriptor

  const TriggerEvents: seq<TriggerEvent> := [TriggerEvent("trigger-event", true)]

  const TextProp := Property("text", Text, "content", true, Some(Str("Button")), [], None)
  const Variant := Property("variant", TextSelect, "style", false, Some(Str("primary")),
    [Str("primary"), Str("secondary"), Str("destructive"), Str("outline"), Str("ghost"), Str("link")], None)
  const Size := Property("size", TextSelect, "style", false, Some(Str("default")),
    [Str("sm"), Str("default"), Str("lg")], None)
  const Loading := Property("loading", OnOff, "behavior", true, Some(Bool(false)), [], None)
  const LoadingText := Property("loadingText", Text, "content", true, Some(Str("Loading...")), [],
    Some(NotOp(Read("loading"))))
  const ShowIcon := Property("showIcon", OnOff, "content", true, Some(Bool(false)), [],
    Some(Read("loading")))
  const IconName := Property("iconName", Text, "content", true, None, [],
    Some(OrOp(NotOp(Read("showIcon")), Read("loading"))))
  const Disabled := Property("disabled", OnOff, "behavior", true, Some(Bool(false)), [], None)
  const ButtonType := Property("buttonType", TextSelect, "behavior", false, Some(Str("button")),
    [Str("button"), Str("submit"), Str("reset")], None)

  const Properties: seq<Property> := [
    TextProp, Variant, Size, Loading, LoadingText, ShowIcon, IconName, Disabled, ButtonType
  ]

  /** The loading text is hidden exactly when `loading` is falsy. */
  lemma LoadingTextVisibility(content: Content)
    ensures IsHidden(LoadingText, content) <==> !Truthy(Get(content, "loading"))
  {
    assert Eval(Read("loading"), content) == Get(content, "loading");
  }

  /** The show-icon switch is hidden exactly when `loading` is truthy; its
      rule returns `content.loading` itself, which need not be a boolean. */
  lemma ShowIconVisibility(content: Content)
    ensures Eval(ShowIcon.hidden.value, content) == Get(content, "loading")
    ensures IsHidden(ShowIcon, content) <==> Truthy(Get(content, "loading"))
  {
  }

  /** For every content exactly one of the loading text and the show-icon
      switch is visible. */
  lemma LoadingTextOrShowIcon(content: Content)
    ensures IsHidden(LoadingText, content) != IsHidden(ShowIcon, content)
  {
    LoadingTextVisibility(content);
    ShowIconVisibility(content);
  }

  /** The icon name is hidden when `showIcon` is falsy or `loading` is
      truthy, so a visible icon name comes with a visible show-icon switch. */
  lemma IconNameVisibility(content: Content)
    ensures IsHidden(IconName, content)
        <==> !Truthy(Get(content, "showIcon")) || Truthy(Get(content, "loading"))
    ensures !IsHidden(IconName, content) ==> !IsHidden(ShowIcon, content)
  {
    var showIcon, loading := Get(content, "showIcon"), Get(content, "loading");
    assert Eval(Read("showIcon"), content) == showIcon;
    assert Eval(IconName.hidden.value, content) == Or(Not(showIcon), loading);
  }

  /** With `loading` and `showIcon` at their defaults (false) the loading
      text and the icon name are hidden and the show-icon switch is shown. */
  lemma DefaultsVisibility(content: Content)
    requires HoldsDefault(content, Loading) && HoldsDefault(content, ShowIcon)
    ensures IsHidden(LoadingText, content) && !IsHidden(ShowIcon, content)
    ensures IsHidden(IconName, content)
  {
    LoadingTextVisibility(content);
    IconNameVisibility(content);
  }

  /** Text, variant, size, loading, disabled and button type have no rule. */
  lemma UnconditionalProperties(content: Content)
    ensures forall p :: p in [TextProp, Variant, Size, Loading, Disabled, ButtonType]
                ==> p.hidden.None? && !IsHidden(p, content)
  {
  }

  /** No two properties share a key. */
  lemma KeysAreUnique()
    ensures UniqueKeys(Properties)
  {
  }

  /** Each rule reads only properties declared beside it. */
  lemma RulesReadDeclaredSiblings()
    ensures forall p :: p in [LoadingText, ShowIcon, IconName] ==> RuleReadsSiblings(Properties, p)
  {
    assert Keys(Properties)[3] == Loading.key && Keys(Properties)[5] == ShowIcon.key;
  }

  /** The one trigger event is the default; the `primary` variant, the
      `default` size and the `button` type are among their choices. */
  lemma EventsAndChoices()
    ensures DefaultEvents(TriggerEvents) == ["trigger-event"] && |TriggerEvents| == 1
    ensures DefaultIsChoice(Variant) && Variant.defaultValue == Some(Str("primary"))
    ensures DefaultIsChoice(Size) && Size.defaultValue == Some(Str("default"))
    ensures DefaultIsChoice(ButtonType) && ButtonType.defaultValue == Some(Str("button"))
  {
  }

  /** Every declared default has the shape of its control: switches default
      to booleans, text fields to strings, numbers to numbers, lists to
      lists, and each select to one of its options. */
  lemma DefaultsFitKinds()
    ensures forall p :: p in Properties ==> DefaultFitsKind(p)
  {
  }
}
