/** The Card widget descriptor (Card/ww-config.js): a header and a footer
    that can each be switched off, and paddings per part. */
module Card {
  import opened Wrappers
  import opened Js
  import opened Descriptor

  const TriggerEvents: seq<TriggerEvent> := [TriggerEvent("click", true)]

  const PaddingChoices: seq<Value> := [Str("none"), Str("sm"), Str("default"), Str("lg")]

  const ShowHeader := Property("showHeader", OnOff, "content", true, Some(Bool(true)), [], None)
  const Title := Property("title", Text, "content", true, Some(Str("Card Title")), [],
    Some(NotOp(Read("showHeader"))))
  const Description := Property("description", LongText, "content", true,
    Some(Str("Card description goes here.")), [], Some(NotOp(Read("showHeader"))))
  const BodyContent := Property("bodyContent", LongText, "content", true,
    Some(Str("This is the main content of the card.")), [], None)
  const ShowFooter := Property("showFooter", OnOff, "content", true, Some(Bool(false)), [], None)
  const FooterContent := Property("footerContent", LongText, "content", true,
    Some(Str("Footer content goes here.")), [], Some(NotOp(Read("showFooter"))))
  const HeaderPadding := Property("headerPadding", TextSelect, "style", true, Some(Str("default")),
    PaddingChoices, Some(NotOp(Read("showHeader"))))
  const ContentPadding := Property("contentPadding", TextSelect, "style", true, Some(Str("default")),
    PaddingChoices + [Str("full")], None)
  const FooterPadding := Property("footerPadding", TextSelect, "style", true, Some(Str("default")),
    PaddingChoices + [Str("full")], Some(NotOp(Read("showFooter"))))

  const Properties: seq<Property> := [
    ShowHeader, Title, Description, BodyContent, ShowFooter, FooterContent,
    HeaderPadding, ContentPadding, FooterPadding
  ]

  /** Title, description and header padding are hidden exactly when
      `showHeader` is falsy. */
  lemma HeaderFieldsVisibility(content: Content)
    ensures forall p :: p in [Title, Description, HeaderPadding]
                ==> (IsHidden(p, content) <==> !Truthy(Get(content, "showHeader")))
  {
    assert Eval(Read("showHeader"), content) == Get(content, "showHeader");
  }

  /** Footer content and footer padding are hidden exactly when
      `showFooter` is falsy. */
  lemma FooterFieldsVisibility(content: Content)
    ensures forall p :: p in [FooterContent, FooterPadding]
                ==> (IsHidden(p, content) <==> !Truthy(Get(content, "showFooter")))
  {
    assert Eval(Read("showFooter"), content) == Get(content, "showFooter");
  }

  /** The body content, the content padding and the two switches are never hidden. */
  lemma UnconditionalProperties(content: Content)
    ensures forall p :: p in [ShowHeader, BodyContent, ShowFooter, ContentPadding]
                ==> p.hidden.None? && !IsHidden(p, content)
  {
  }

  /** With both switches at their defaults (header on, footer off) the
      header fields are shown and the footer fields hidden. */
  lemma DefaultsVisibility(content: Content)
    requires HoldsDefault(content, ShowHeader) && HoldsDefault(content, ShowFooter)
    ensures !IsHidden(Title, content) && !IsHidden(Description, content) && !IsHidden(HeaderPadding, content)
    ensures IsHidden(FooterContent, content) && IsHidden(FooterPadding, content)
  {
    HeaderFieldsVisibility(content);
    FooterFieldsVisibility(content);
  }

  /** No two properties share a key. */
  lemma KeysAreUnique()
    ensures UniqueKeys(Properties)
  {
  }

  /** Each rule reads only a switch declared beside it. */
  lemma RulesReadDeclaredSiblings()
    ensures forall p :: p in [Title, Description, FooterContent, HeaderPadding, FooterPadding]
                ==> RuleReadsSiblings(Properties, p)
  {
    assert Keys(Properties)[0] == ShowHeader.key && Keys(Properties)[4] == ShowFooter.key;
  }

  /** The one trigger event is the default, and each padding's default is
      among its choices. */
  lemma EventsAndChoices()
    ensures DefaultEvents(TriggerEvents) == ["click"] && |TriggerEvents| == 1
    ensures DefaultIsChoice(HeaderPadding) && DefaultIsChoice(ContentPadding) && DefaultIsChoice(FooterPadding)
  {
  }

  /** Every declared default has the shape of its control: switches default
      to booleans, text fields to strings, numbers to numbers, lists to
      lists, and each select to one of its options. */
  lemma DefaultsFitKinds()
    ensures forall p :: p in Properties ==> DefaultFitsKind(p)
  {
  }
}
