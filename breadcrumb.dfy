/** The Breadcrumb widget descriptor (Breadcrumb/ww-config.js). */
module Breadcrumb {
  import opened Wrappers
  import opened Js
  import opened Descriptor

  const TriggerEvents: seq<TriggerEvent> := [TriggerEvent("click", true)]

  function Crumb(name: string, href: string, isCurrentPage: bool): Value {
    Rec(map["label" := Str(name), "href" := Str(href), "isCurrentPage" := Bool(isCurrentPage)])
  }

  const DefaultItems: seq<Value> := [
    Crumb("Home", "/", false),
    Crumb("Category", "/category", false),
    Crumb("Current Page", "", true)
  ]

  /** `!content.maxItems || content.maxItems === 0` */
  const CollapseRule: Expr := OrOp(NotOp(Read("maxItems")), StrictEqOp(Read("maxItems"), Int(0)))

  const Items := Property("items", Kind.Array, "content", true, Some(Arr(DefaultItems)), [], None)
  const MaxItems := Property("maxItems", Number, "settings", true, Some(Int(0)), [], None)
  const ItemsBeforeCollapse := Property("itemsBeforeCollapse", Number, "settings", true, Some(Int(1)), [],
    Some(CollapseRule))
  const ItemsAfterCollapse := Property("itemsAfterCollapse", Number, "settings", true, Some(Int(1)), [],
    Some(CollapseRule))
  const Separator := Property("separator", TextSelect, "style", true, Some(Str("chevron")),
    [Str("chevron"), Str("slash"), Str("dash"), Str("dot")], None)

  const Properties: seq<Property> := [Items, MaxItems, ItemsBeforeCollapse, ItemsAfterCollapse, Separator]

  /** The collapse rule returns exactly `!maxItems`: its `=== 0` disjunct is
      only reached when `maxItems` is truthy, hence never `0`, so it adds
      nothing.  Both collapse counts are therefore hidden exactly when
      `maxItems` is falsy. */
  lemma CollapseRuleIsNot(content: Content)
    ensures Eval(CollapseRule, content) == Bool(!Truthy(Get(content, "maxItems")))
    ensures IsHidden(ItemsBeforeCollapse, content) <==> !Truthy(Get(content, "maxItems"))
    ensures IsHidden(ItemsAfterCollapse, content) == IsHidden(ItemsBeforeCollapse, content)
  {
    var m := Get(content, "maxItems");
    assert Eval(Read("maxItems"), content) == m;
    assert Eval(NotOp(Read("maxItems")), content) == Not(m);
    assert Eval(StrictEqOp(Read("maxItems"), Int(0)), content) == StrictEq(m, Int(0));
  }

  /** Any nonzero integer limit shows both collapse counts; the default
      limit `0` (unlimited) hides them. */
  lemma LimitVisibility(content: Content, n: int)
    ensures n != 0 ==>
              !IsHidden(ItemsBeforeCollapse, content["maxItems" := Int(n)]) &&
              !IsHidden(ItemsAfterCollapse, content["maxItems" := Int(n)])
    ensures HoldsDefault(content, MaxItems) ==>
              IsHidden(ItemsBeforeCollapse, content) && IsHidden(ItemsAfterCollapse, content)
  {
    CollapseRuleIsNot(content);
    CollapseRuleIsNot(content["maxItems" := Int(n)]);
    assert Get(content["maxItems" := Int(n)], "maxItems") == Int(n);
  }

  /** The items, the limit and the separator have no rule. */
  lemma UnconditionalProperties(content: Content)
    ensures forall p :: p in [Items, MaxItems, Separator] ==> p.hidden.None? && !IsHidden(p, content)
  {
  }

  /** Of the three default crumbs exactly the last is the current page. */
  lemma DefaultItemsCurrentPage()
    ensures |DefaultItems| == 3
    ensures forall i :: 0 <= i < |DefaultItems| ==>
              DefaultItems[i].Rec? && "isCurrentPage" in DefaultItems[i].fields &&
              (DefaultItems[i].fields["isCurrentPage"] == Bool(true) <==> i == |DefaultItems| - 1)
  {
  }

  /** No two properties share a key. */
  lemma KeysAreUnique()
    ensures UniqueKeys(Properties)
  {
  }

  /** Both rules read only the limit declared beside them. */
  lemma RulesReadDeclaredSiblings()
    ensures RuleReadsSiblings(Properties, ItemsBeforeCollapse) && RuleReadsSiblings(Properties, ItemsAfterCollapse)
  {
    assert Keys(Properties)[1] == MaxItems.key;
  }

  /** The one trigger event is the default; both collapse counts default to
      one; the separator defaults to `chevron`, one of its choices. */
  lemma EventsAndChoices()
    ensures DefaultEvents(TriggerEvents) == ["click"] && |TriggerEvents| == 1
    ensures ItemsBeforeCollapse.defaultValue == Some(Int(1)) && ItemsAfterCollapse.defaultValue == Some(Int(1))
    ensures DefaultIsChoice(Separator) && Separator.defaultValue == Some(Str("chevron"))
  {
  }

  /** Every declared default has the shape of its control: switches default
      to booleans, text fields to strings, numbers to numbers, lists to
      lists, and each select to one of its options. */
  lemma DefaultsFitKinds()
    ensures forall p :: p in Properties ==> DefaultFitsKind(p)
  {
  }
}
