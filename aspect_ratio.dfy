/** The AspectRatio widget descriptor (AspectRatio/ww-config.js). */
module AspectRatio {
  import opened Wrappers
  import opened Js
  import opened Descriptor

  const TriggerEvents: seq<TriggerEvent> := [TriggerEvent("click", true)]

  /** The preset ratios are numbers (the square one integral), the last
      choice the string `custom`. */
  const RatioChoices: seq<Value> := [
    Int(1), Frac("1.333"), Frac("1.777"), Frac("2.35"), Frac("0.75"), Frac("0.5625"), Str("custom")
  ]

  const Ratio := Property("ratio", TextSelect, "settings", true, Some(Frac("1.777")), RatioChoices, None)
  const CustomRatio := Property("customRatio", Text, "settings", true, Some(Str("")), [],
    Some(StrictNeOp(Read("ratio"), Str("custom"))))

  const Properties: seq<Property> := [Ratio, CustomRatio]

  /** The custom ratio is shown exactly when `ratio` is the string `custom`. */
  lemma CustomRatioVisibility(content: Content)
    ensures IsHidden(CustomRatio, content) <==> Get(content, "ratio") != Str("custom")
  {
    assert Eval(Read("ratio"), content) == Get(content, "ratio");
    assert Eval(CustomRatio.hidden.value, content) == StrictNe(Get(content, "ratio"), Str("custom"));
  }

  /** Among the choices only the last one shows the custom ratio, and the
      default ratio (16:9) hides it. */
  lemma ChoicesVisibility(content: Content)
    ensures forall i :: 0 <= i < |RatioChoices| ==>
              (IsHidden(CustomRatio, content["ratio" := RatioChoices[i]]) <==> i != |RatioChoices| - 1)
    ensures HoldsDefault(content, Ratio) ==> IsHidden(CustomRatio, content)
  {
    forall i | 0 <= i < |RatioChoices|
      ensures IsHidden(CustomRatio, content["ratio" := RatioChoices[i]]) <==> i != |RatioChoices| - 1
    {
      CustomRatioVisibility(content["ratio" := RatioChoices[i]]);
    }
    CustomRatioVisibility(content);
  }

  /** The ratio itself has no rule. */
  lemma UnconditionalProperties(content: Content)
    ensures Ratio.hidden.None? && !IsHidden(Ratio, content)
  {
  }

  /** The two keys differ, and the rule reads only the ratio. */
  lemma KeysAndRules()
    ensures UniqueKeys(Properties)
    ensures RuleReadsSiblings(Properties, CustomRatio)
  {
    assert Keys(Properties)[0] == Ratio.key;
  }

  /** The one trigger event is the default; the default ratio is one of the
      seven choices. */
  lemma EventsAndChoices()
    ensures DefaultEvents(TriggerEvents) == ["click"] && |TriggerEvents| == 1
    ensures DefaultIsChoice(Ratio) && |Ratio.choices| == 7
  {
  }

  /** Every declared default has the shape of its control: switches default
      to booleans, text fields to strings, numbers to numbers, lists to
      lists, and each select to one of its options. */
  lemma DefaultsFitKinds()
    ensures forall p :: p in Properties ==> DefaultFitsKind(p)
  {
  }
}
