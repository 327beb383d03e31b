/** The AlertDialog widget descriptor (AlertDialog/ww-config.js). */
module AlertDialog {
  import opened Wrappers
  import opened Js
  import opened Descriptor

  const TriggerEvents: seq<TriggerEvent> := [
    TriggerEvent("confirm", true),
    TriggerEvent("cancel", false),
    TriggerEvent("close", false)
  ]

  const IsOpen := Property("isOpen", OnOff, "settings", true, Some(Bool(false)), [], None)
  const Title := Property("title", Text, "content", true, Some(Str("Are you absolutely sure?")), [], None)
  const Description := Property("description", LongText, "content", true,
    Some(Str("This action cannot be undone. This will permanently delete your account and remove your data from our servers.")),
    [], None)
  const Variant := Property("variant", TextSelect, "settings", true, Some(Str("destructive")),
    [Str("default"), Str("destructive"), Str("warning"), Str("info"), Str("success")], None)
  const ShowCancel := Property("showCancel", OnOff, "settings", true, Some(Bool(true)), [], None)
  const CancelLabel := Property("cancelLabel", Text, "content", true, Some(Str("Cancel")), [],
    Some(NotOp(Read("showCancel"))))
  const ConfirmLabel := Property("confirmLabel", Text, "content", true, Some(Str("Continue")), [], None)
  const RequireConfirmation := Property("requireConfirmation", OnOff, "settings", true, Some(Bool(false)), [], None)
  const ConfirmationLabel := Property("confirmationLabel", Text, "content", true,
    Some(Str("Type 'delete' to confirm")), [], Some(NotOp(Read("requireConfirmation"))))
  const ConfirmationPlaceholder := Property("confirmationPlaceholder", Text, "content", true,
    Some(Str("delete")), [], Some(NotOp(Read("requireConfirmation"))))
  const ConfirmationMatch := Property("confirmationMatch", Text, "content", true,
    Some(Str("delete")), [], Some(NotOp(Read("requireConfirmation"))))

  const Properties: seq<Property> := [
    IsOpen, Title, Description, Variant, ShowCancel, CancelLabel, ConfirmLabel,
    RequireConfirmation, ConfirmationLabel, ConfirmationPlaceholder, ConfirmationMatch
  ]

  /** The cancel label is hidden exactly when `showCancel` is falsy. */
  lemma CancelLabelVisibility(content: Content)
    ensures IsHidden(CancelLabel, content) <==> !Truthy(Get(content, "showCancel"))
  {
    assert Eval(Read("showCancel"), content) == Get(content, "showCancel");
  }

  /** The three confirmation fields are shown and hidden together, on the
      truthiness of `requireConfirmation`. */
  lemma ConfirmationFieldsVisibility(content: Content)
    ensures IsHidden(ConfirmationLabel, content) <==> !Truthy(Get(content, "requireConfirmation"))
    ensures IsHidden(ConfirmationPlaceholder, content) == IsHidden(ConfirmationLabel, content)
    ensures IsHidden(ConfirmationMatch, content) == IsHidden(ConfirmationLabel, content)
  {
    assert Eval(Read("requireConfirmation"), content) == Get(content, "requireConfirmation");
  }

  /** With `requireConfirmation` at its declared default (false) the three
      confirmation fields are hidden; their own defaults are as declared. */
  lemma ConfirmationDefaults(content: Content)
    requires HoldsDefault(content, RequireConfirmation)
    ensures Get(content, "requireConfirmation") == Bool(false)
    ensures IsHidden(ConfirmationLabel, content)
    ensures IsHidden(ConfirmationPlaceholder, content)
    ensures IsHidden(ConfirmationMatch, content)
    ensures ConfirmationLabel.defaultValue == Some(Str("Type 'delete' to confirm"))
    ensures ConfirmationPlaceholder.defaultValue == Some(Str("delete"))
    ensures ConfirmationMatch.defaultValue == Some(Str("delete"))
  {
  }

  /** The properties above the confirmation fields, other than the cancel
      label, have no rule and are always shown. */
  lemma UnconditionalProperties(content: Content)
    ensures forall p :: p in [IsOpen, Title, Description, Variant, ShowCancel,
                              ConfirmLabel, RequireConfirmation]
                ==> p.hidden.None? && !IsHidden(p, content)
  {
  }

  /** No two properties share a key. */
  lemma KeysAreUnique()
    ensures UniqueKeys(Properties)
  {
  }

  /** Each of the four rules reads only a property declared beside it. */
  lemma RulesReadDeclaredSiblings()
    ensures forall p :: p in [CancelLabel, ConfirmationLabel, ConfirmationPlaceholder, ConfirmationMatch]
                ==> RuleReadsSiblings(Properties, p)
  {
    assert Keys(Properties)[4] == ShowCancel.key && Keys(Properties)[7] == RequireConfirmation.key;
  }

  /** Of the three trigger events only `confirm` is the default, and the
      default variant is one of the five choices. */
  lemma EventsAndChoices()
    ensures DefaultEvents(TriggerEvents) == ["confirm"]
    ensures DefaultIsChoice(Variant) && |Variant.choices| == 5
  {
  }

  /** Every declared default has the shape of its control: switches default
      to booleans, text fields to strings, numbers to numbers, lists to
      lists, and each select to one of its options. */
  lemma DefaultsFitKinds()
    ensures forall p :: p in Properties ==> DefaultFitsKind(p)
  {
  }
}
