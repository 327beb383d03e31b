/** The Avatar widget descriptor (Avatar/ww-config.js). */
module Avatar {
  import opened Wrappers
  import opened Js
  import opened Descriptor

  const TriggerEvents: seq<TriggerEvent> := [
    TriggerEvent("click", true),
    TriggerEvent("image-error", false),
    TriggerEvent("image-load", false)
  ]

  const Src := Property("src", Text, "content", true, Some(Str("")), [], None)
  const Alt := Property("alt", Text, "content", true, Some(Str("Avatar")), [], None)
  const Name := Property("name", Text, "content", true, Some(Str("John Doe")), [], None)
  const FallbackText := Property("fallbackText", Text, "content", true, Some(Str("")), [], None)
  const Size := Property("size", TextSelect, "style", true, Some(Str("default")),
    [Str("sm"), Str("default"), Str("lg"), Str("xl")], None)
  const Variant := Property("variant", TextSelect, "style", true, Some(Str("default")),
    [Str("default"), Str("square")], None)
  const ShowStatus := Property("showStatus", OnOff, "settings", true, Some(Bool(false)), [], None)
  const Status := Property("status", TextSelect, "settings", true, Some(Str("online")),
    [Str("online"), Str("offline"), Str("away"), Str("busy")], Some(NotOp(Read("showStatus"))))

  const Properties: seq<Property> := [Src, Alt, Name, FallbackText, Size, Variant, ShowStatus, Status]

  /** The status is hidden exactly when `showStatus` is falsy. */
  lemma StatusVisibility(content: Content)
    ensures IsHidden(Status, content) <==> !Truthy(Get(content, "showStatus"))
  {
    assert Eval(Read("showStatus"), content) == Get(content, "showStatus");
  }

  /** The status is the only property with a rule. */
  lemma OnlyStatusHasRule(content: Content)
    ensures forall p :: p in Properties && p.hidden.Some? ==> p == Status
    ensures forall p :: p in Properties && p != Status ==> !IsHidden(p, content)
  {
  }

  /** With `showStatus` at its default (false) the status is hidden. */
  lemma DefaultsVisibility(content: Content)
    requires HoldsDefault(content, ShowStatus)
    ensures IsHidden(Status, content)
  {
    StatusVisibility(content);
  }

  /** No two properties share a key. */
  lemma KeysAreUnique()
    ensures UniqueKeys(Properties)
  {
  }

  /** The status rule reads only the switch declared beside it. */
  lemma RulesReadDeclaredSiblings()
    ensures RuleReadsSiblings(Properties, Status)
  {
    assert Keys(Properties)[6] == ShowStatus.key;
  }

  /** Of the three trigger events only `click` is the default; the status
      default `online` is one of the four choices, and size and variant
      defaults are among theirs. */
  lemma EventsAndChoices()
    ensures DefaultEvents(TriggerEvents) == ["click"]
    ensures DefaultIsChoice(Status) && |Status.choices| == 4
    ensures DefaultIsChoice(Size) && DefaultIsChoice(Variant)
  {
  }

  /** Every declared default has the shape of its control: switches default
      to booleans, text fields to strings, numbers to numbers, lists to
      lists, and each select to one of its options. */
  lemma DefaultsFitKinds()
    ensures forall p :: p in Properties ==> DefaultFitsKind(p)
  {
  }
}
