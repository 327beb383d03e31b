# Shadcn widgets for WeWeb: a Dafny model of the descriptors and the runtime helpers

The repository is a set of WeWeb widgets built on shadcn components. A
widget is mostly a static descriptor (`ww-config.js`): its editable
properties with their defaults and option values, the events it can
trigger, and for some properties a `hidden: content => …` rule that
decides whether the editor shows the property. Next to the widgets sits a
reference copy of the front-end library `wwLib`
(`ButtonReference/src/wwLib/index.js`). Its helpers do the following:

- resolve a responsive style property across screen sizes and element
  states;
- normalise the site's base path;
- sanitise a page object for formulas;
- classify the running environment;
- wrap a value as an element descriptor;
- forward events to a shared emitter.

The model has three parts.

- **JavaScript values** (`js.dfy`). A `Value` datatype holds `undefined`,
  `null`, booleans, numbers, strings, arrays and objects. Beside it are
  JavaScript truthiness and the operators the descriptors use: `!`, `&&`,
  `||`, `===`, `!==` and `includes`.
- **Descriptors** (`descriptor.dfy` and one file per widget). A descriptor
  is an ordered list of `Property` values and a list of trigger events.
  Each `hidden` rule is an `Expr` evaluated over a content map. A property
  is hidden when its rule's result is truthy. For each of the nine widgets
  with rules, the lemmas state:
  - when each rule hides its property;
  - which properties have no rule;
  - what the defaults imply for visibility;
  - that each default has the shape of its control type, and each select default is among its options;
  - that keys are unique and rules read only sibling properties;
  - which trigger events are marked default.
- **Runtime helpers** (`responsive_style.dfy`, `base_tag.dfy`,
  `page_sanitizer.dfy`, `environment.dfy`, `element.dfy`,
  `event_bus.dfy`).
  - The helpers that assign step by step are methods. Each is proved equal
    to a specification function: the style cascade's two loops, the
    base-tag rewriting, the sanitiser's copy loop and in-place deletions,
    and the event guard.
  - Lemmas about those functions state the promised properties.
  - The pure helpers (`getEnvironment`, `element`) are functions with
    lemmas.
  - Globals the helpers read become parameters: the store's screen sizes,
    current screen size, objects and language; `window.location.host`;
    `window.wwg_designInfo.baseTag?.href`; `wwLib.manager`; the
    environment variables.

Where a helper can throw, the model returns `Failure(TypeError)`. This
covers reading a property of `undefined`, iterating over a non-iterable,
and calling `startsWith` on a non-string.

## Model

| member | source | states |
|---|---|---|
| Js.Not | Button/ww-config.js:108 | `!v` is a boolean, true exactly when `v` is falsy |
| Js.And | ww-config.js:109 | `a && b` is one of its operands and is truthy exactly when both are |
| Js.Or | Button/ww-config.js:129 | `a \|\| b` is one of its operands and is truthy exactly when either is |
| Js.StrictEq | Breadcrumb/ww-config.js:78 | `===` against a primitive literal is a boolean, true exactly for equal values |
| Js.StrictNe | AspectRatio/ww-config.js:67 | `a !== b` is the negation of `a === b` |
| Js.Includes | ww-config.js:98 | `[...].includes(v)` over primitive literals is a boolean, true exactly when some element equals `v` |
| Descriptor.EvalReadsOnly | Badge/ww-config.js:121-136 | two contents that agree on the keys a rule reads give the rule the same result |
| Descriptor.VisibilityReadsOnly | Card/ww-config.js:59-148 | a property's visibility depends only on the keys its rule reads |
| Descriptor.DefaultEvents | AlertDialog/ww-config.js:38-55 | the names listed are exactly those of the events marked `default: true` |
| Descriptor.DefaultEventsAppend | Avatar/ww-config.js:35-52 | the default names of two event lists in turn are those of the first followed by those of the second, so they keep declaration order |
| ShadcnButton.ShowIconVisibility | ww-config.js:92-100 | `showIcon` is hidden exactly when `variant` is `'icon'` or `'loading'`; the rule returns a boolean |
| ShadcnButton.IconNameVisibility | ww-config.js:101-112 | `iconName` is hidden exactly when `showIcon` is falsy and `variant !== 'icon'`; the icon variant always shows it |
| ShadcnButton.LoadingTextVisibility | ww-config.js:136-146 | `loadingText` is visible exactly when `variant === 'loading'` |
| ShadcnButton.LoadingVariantSwapsControls | ww-config.js:98-145 | with `variant = 'loading'`, `showIcon` is hidden and `loadingText` is visible |
| ShadcnButton.DefaultsVisibility | ww-config.js:58-146 | under the default variant `showIcon` is shown and `loadingText` hidden |
| ShadcnButton.UnconditionalProperties | ww-config.js:46-135 | text, variant, size, disabled and type have no rule and are always shown |
| ShadcnButton.KeysAreUnique | ww-config.js:44-147 | no two properties share a key |
| ShadcnButton.RulesReadDeclaredSiblings | ww-config.js:98-145 | every rule reads only other declared properties |
| ShadcnButton.EventsAndChoices | ww-config.js:36-135 | exactly one trigger event, marked default; the defaults of variant, size and type are among their options |
| ShadcnButton.DefaultsFitKinds | ww-config.js:44-147 | every declared default matches its control type: booleans for switches, strings for text, numbers for number fields, lists for arrays, and one of the options for each select |
| Button.LoadingTextVisibility | Button/ww-config.js:99-109 | `loadingText` is hidden exactly when `loading` is falsy |
| Button.ShowIconVisibility | Button/ww-config.js:112-119 | the rule returns `content.loading` itself; `showIcon` is hidden exactly when `loading` is truthy |
| Button.LoadingTextOrShowIcon | Button/ww-config.js:108-118 | for every content exactly one of `loadingText` and `showIcon` is visible |
| Button.IconNameVisibility | Button/ww-config.js:118-129 | `iconName` is hidden exactly when `showIcon` is falsy or `loading` truthy; a visible `iconName` implies a visible `showIcon` |
| Button.DefaultsVisibility | Button/ww-config.js:91-130 | with `loading` and `showIcon` at their defaults, `loadingText` and `iconName` are hidden and `showIcon` shown |
| Button.UnconditionalProperties | Button/ww-config.js:47-153 | text, variant, size, loading, disabled and buttonType have no rule |
| Button.KeysAreUnique | Button/ww-config.js:45-154 | no two properties share a key |
| Button.RulesReadDeclaredSiblings | Button/ww-config.js:108-129 | every rule reads only other declared properties |
| Button.EventsAndChoices | Button/ww-config.js:37-153 | one trigger event, marked default; the defaults `primary` (variant), `default` (size) and `button` (buttonType) are among their options |
| Button.DefaultsFitKinds | Button/ww-config.js:45-154 | every declared default matches its control type: booleans for switches, strings for text, numbers for number fields, lists for arrays, and one of the options for each select |
| AlertDialog.CancelLabelVisibility | AlertDialog/ww-config.js:110-117 | `cancelLabel` is hidden exactly when `showCancel` is falsy |
| AlertDialog.ConfirmationFieldsVisibility | AlertDialog/ww-config.js:136-161 | the three confirmation fields have identical visibility, hidden exactly when `requireConfirmation` is falsy |
| AlertDialog.ConfirmationDefaults | AlertDialog/ww-config.js:128-161 | with `requireConfirmation` at its default (false) all three are hidden; their defaults are `Type 'delete' to confirm`, `delete`, `delete` |
| AlertDialog.UnconditionalProperties | AlertDialog/ww-config.js:58-134 | isOpen, title, description, variant, showCancel, confirmLabel and requireConfirmation have no rule |
| AlertDialog.KeysAreUnique | AlertDialog/ww-config.js:56-162 | no two properties share a key |
| AlertDialog.RulesReadDeclaredSiblings | AlertDialog/ww-config.js:116-160 | every rule reads only other declared properties |
| AlertDialog.EventsAndChoices | AlertDialog/ww-config.js:38-99 | of the three events only `confirm` is default; the `destructive` default is one of five variants |
| AlertDialog.DefaultsFitKinds | AlertDialog/ww-config.js:56-162 | every declared default matches its control type: booleans for switches, strings for text, numbers for number fields, lists for arrays, and one of the options for each select |
| Card.HeaderFieldsVisibility | Card/ww-config.js:53-114 | title, description and headerPadding are hidden exactly when `showHeader` is falsy |
| Card.FooterFieldsVisibility | Card/ww-config.js:89-149 | footerContent and footerPadding are hidden exactly when `showFooter` is falsy |
| Card.UnconditionalProperties | Card/ww-config.js:45-131 | showHeader, bodyContent, showFooter and contentPadding are never hidden |
| Card.DefaultsVisibility | Card/ww-config.js:45-87 | with the switches at their defaults (on, off) the header fields are shown and the footer fields hidden |
| Card.KeysAreUnique | Card/ww-config.js:43-150 | no two properties share a key |
| Card.RulesReadDeclaredSiblings | Card/ww-config.js:59-148 | every rule reads only a declared switch |
| Card.EventsAndChoices | Card/ww-config.js:35-149 | one trigger event, marked default; each padding default is among its options |
| Card.DefaultsFitKinds | Card/ww-config.js:43-150 | every declared default matches its control type: booleans for switches, strings for text, numbers for number fields, lists for arrays, and one of the options for each select |
| Avatar.StatusVisibility | Avatar/ww-config.js:140-155 | `status` is hidden exactly when `showStatus` is falsy |
| Avatar.OnlyStatusHasRule | Avatar/ww-config.js:55-155 | `status` is the only property with a rule; every other property is always shown |
| Avatar.DefaultsVisibility | Avatar/ww-config.js:132-155 | with `showStatus` at its default (false) `status` is hidden |
| Avatar.KeysAreUnique | Avatar/ww-config.js:53-156 | no two properties share a key |
| Avatar.RulesReadDeclaredSiblings | Avatar/ww-config.js:154 | the rule reads only the declared `showStatus` |
| Avatar.EventsAndChoices | Avatar/ww-config.js:35-152 | of three events only `click` is default; `online` is one of four statuses; size and variant defaults are options |
| Avatar.DefaultsFitKinds | Avatar/ww-config.js:53-156 | every declared default matches its control type: booleans for switches, strings for text, numbers for number fields, lists for arrays, and one of the options for each select |
| Badge.IconFieldsVisibility | Badge/ww-config.js:112-137 | iconName and iconPosition have identical visibility, hidden exactly when `showIcon` is falsy |
| Badge.DefaultsVisibility | Badge/ww-config.js:104-137 | with `showIcon` at its default (false) both are hidden |
| Badge.DismissibleIsIndependent | Badge/ww-config.js:95-101 | `dismissible` has no rule, and changing its value changes no property's visibility |
| Badge.UnconditionalProperties | Badge/ww-config.js:49-110 | text, variant, size, dismissible and showIcon have no rule |
| Badge.KeysAreUnique | Badge/ww-config.js:47-138 | no two properties share a key |
| Badge.RulesReadDeclaredSiblings | Badge/ww-config.js:121-136 | both rules read only the declared `showIcon` |
| Badge.EventsAndChoices | Badge/ww-config.js:34-137 | of two events only `click` is default; iconPosition defaults to `left` of `{left, right}`; iconName defaults to `star` |
| Badge.DefaultsFitKinds | Badge/ww-config.js:47-138 | every declared default matches its control type: booleans for switches, strings for text, numbers for number fields, lists for arrays, and one of the options for each select |
| Breadcrumb.CollapseRuleIsNot | Breadcrumb/ww-config.js:72-88 | the rule returns exactly `!maxItems` (the `=== 0` disjunct adds nothing); both counts are hidden exactly when `maxItems` is falsy |
| Breadcrumb.LimitVisibility | Breadcrumb/ww-config.js:64-88 | any nonzero integer `maxItems`, negatives included, shows both counts; the default `0` hides both |
| Breadcrumb.UnconditionalProperties | Breadcrumb/ww-config.js:41-105 | items, maxItems and separator have no rule |
| Breadcrumb.DefaultItemsCurrentPage | Breadcrumb/ww-config.js:41-61 | of the three default items exactly the last has `isCurrentPage` true |
| Breadcrumb.KeysAreUnique | Breadcrumb/ww-config.js:39-106 | no two properties share a key |
| Breadcrumb.RulesReadDeclaredSiblings | Breadcrumb/ww-config.js:78-87 | both rules read only the declared `maxItems` |
| Breadcrumb.EventsAndChoices | Breadcrumb/ww-config.js:31-105 | one event, marked default; both counts default to 1; the separator defaults to `chevron`, one of its options |
| Breadcrumb.DefaultsFitKinds | Breadcrumb/ww-config.js:39-106 | every declared default matches its control type: booleans for switches, strings for text, numbers for number fields, lists for arrays, and one of the options for each select |
| AspectRatio.CustomRatioVisibility | AspectRatio/ww-config.js:58-68 | `customRatio` is hidden exactly when `ratio` is not the string `custom` |
| AspectRatio.ChoicesVisibility | AspectRatio/ww-config.js:39-68 | of the seven ratio options only `custom` shows `customRatio`; the default (1.777) hides it |
| AspectRatio.UnconditionalProperties | AspectRatio/ww-config.js:39-56 | `ratio` has no rule |
| AspectRatio.KeysAndRules | AspectRatio/ww-config.js:37-69 | the keys differ and the rule reads only `ratio` |
| AspectRatio.EventsAndChoices | AspectRatio/ww-config.js:29-56 | one event, marked default; the default ratio is one of the seven options |
| AspectRatio.DefaultsFitKinds | AspectRatio/ww-config.js:37-69 | every declared default matches its control type: booleans for switches, strings for text, numbers for number fields, lists for arrays, and one of the options for each select |
| Accordion.CollapsibleVisibility | Accordion/ww-config.js:77-84 | `collapsible` is hidden exactly when `type !== 'single'`, so `multiple` and a missing type hide it |
| Accordion.DefaultsVisibility | Accordion/ww-config.js:63-84 | the default type `single` shows `collapsible`, which defaults to true |
| Accordion.UnconditionalProperties | Accordion/ww-config.js:41-95 | items, type and defaultOpenItems have no rule |
| Accordion.DefaultContents | Accordion/ww-config.js:41-95 | three default sections, each with a title and a content; no item open by default |
| Accordion.KeysAndRules | Accordion/ww-config.js:39-96 | no two keys coincide; the rule reads only `type` |
| Accordion.EventsAndChoices | Accordion/ww-config.js:31-75 | one event, marked default; the default type is one of the options |
| Accordion.DefaultsFitKinds | Accordion/ww-config.js:39-96 | every declared default matches its control type: booleans for switches, strings for text, numbers for number fields, lists for arrays, and one of the options for each select |
| ResponsiveStyle.Consulted | ButtonReference/src/wwLib/index.js:72-78 | the visited media keys are a prefix of the screen sizes ending at the first occurrence of the current one, and all of them when it does not occur |
| ResponsiveStyle.ConsultedAt | ButtonReference/src/wwLib/index.js:76-77 | breaking at the first index holding the current size has visited exactly `Consulted` |
| ResponsiveStyle.LastAccepted | ButtonReference/src/wwLib/index.js:73-83 | a pass ends with a value it visited and accepted, if any |
| ResponsiveStyle.LastAcceptedAt | ButtonReference/src/wwLib/index.js:73-83 | the pass ends with the value at the last accepted position |
| ResponsiveStyle.LastAcceptedNone | ButtonReference/src/wwLib/index.js:70-83 | the pass keeps its starting value exactly when it accepts no visited value |
| ResponsiveStyle.LastAcceptedAppend | ButtonReference/src/wwLib/index.js:80-89 | visiting two key lists in turn is the second pass started from the first pass's result |
| ResponsiveStyle.StateKeys | ButtonReference/src/wwLib/index.js:80-82 | the state pass visits `|states| * |consulted|` keys |
| ResponsiveStyle.StateKeysAt | ButtonReference/src/wwLib/index.js:80-82 | the key at `j * |medias| + i` is `${states[j]}_${medias[i]}`: states in order, media in order within each |
| ResponsiveStyle.Base | ButtonReference/src/wwLib/index.js:70-79 | the base value of the first loop; no ensures of its own: `BaseIsLastDefined` states what it is and `BaseValue` proves the loop against it |
| ResponsiveStyle.Cascade | ButtonReference/src/wwLib/index.js:59-92 | the value returned for a style object; no ensures of its own: `BaseIsLastDefined` and `StateOverride` state what it is, and `StateValue` and `GetResponsiveStyleProp` prove the loops against it |
| ResponsiveStyle.BaseIsLastDefined | ButtonReference/src/wwLib/index.js:70-79 | the base value is the value of the last consulted media key that is not `undefined` (`null` counts); `''` when there is none |
| ResponsiveStyle.StateOverride | ButtonReference/src/wwLib/index.js:80-89 | the last truthy state-media value overrides the base; with none truthy the base value stands |
| ResponsiveStyle.FalsyValuesSplitThePasses | ButtonReference/src/wwLib/index.js:73-82 | a falsy value other than `undefined` is taken by the base pass and never by the state pass |
| ResponsiveStyle.CascadeReadsOnlyConsulted | ButtonReference/src/wwLib/index.js:72-88 | styles that agree on the consulted keys and their state keys give the same result |
| ResponsiveStyle.LaterMediaNeverConsulted | ButtonReference/src/wwLib/index.js:76-87 | an entry under a media key after the current size, or a state key built from it, changes nothing |
| ResponsiveStyle.BaseValue | ButtonReference/src/wwLib/index.js:70-79 | the first loop, with its `break`, computes `Base` over `Consulted` |
| ResponsiveStyle.ApplyState | ButtonReference/src/wwLib/index.js:81-88 | the inner loop for one state gives the last truthy value among that state's consulted keys, else the value held |
| ResponsiveStyle.StateValue | ButtonReference/src/wwLib/index.js:80-89 | the outer state loop gives the last truthy value over all state keys, else the base value |
| ResponsiveStyle.GetResponsiveStyleProp | ButtonReference/src/wwLib/index.js:59-92 | a given style gives `Cascade`; with no style, an unknown uid gives `''`, a known one the cascade over its `_state.style` (else `{}`); with no style and no uid it throws unless there are no screen sizes |
| BaseTag.Normalised | ButtonReference/src/wwLib/index.js:186-191 | the result starts and ends with `/`; a `/` is added in front only if missing and at the end only if missing; the rest is unchanged; nothing changes exactly when the input is already a base path |
| BaseTag.NormalisedIdempotent | ButtonReference/src/wwLib/index.js:186-191 | normalising twice is normalising once |
| BaseTag.GetBaseTag | ButtonReference/src/wwLib/index.js:184-193 | throws exactly for a truthy non-string href; otherwise returns the normalised `href \|\| ''`, `/` for a falsy href |
| Environment.StagingNeedle | ButtonReference/src/wwLib/index.js:168 | the needle is `-staging.` followed by the preview URL in a staging build, and `-staging.` alone otherwise |
| Environment.GetEnvironment | ButtonReference/src/wwLib/index.js:163-174 | the environment chosen by the first test that holds; no ensures of its own: `Precedence` states when each of the four results is returned |
| Environment.Precedence | ButtonReference/src/wwLib/index.js:163-174 | editor exactly when `manager` is truthy; staging, preview and production each exactly when their test holds and every earlier one fails |
| Environment.ContainsParts | ButtonReference/src/wwLib/index.js:166-171 | a host that includes `a + b` includes `a` and includes `b` |
| Environment.ContainsEmpty | ButtonReference/src/wwLib/index.js:171 | every host includes `''` |
| Environment.StagingHostMarked | ButtonReference/src/wwLib/index.js:166-170 | a staging host contains `-staging.` whatever the build |
| Environment.StagingBuildStagingHostContainsPreview | ButtonReference/src/wwLib/index.js:166-172 | in a staging build a staging host also contains the preview URL, so the staging test must come first |
| Environment.EmptyPreviewUrlNeverProduction | ButtonReference/src/wwLib/index.js:171-173 | with an empty preview URL nothing outside the editor is production |
| Environment.UnsetPreviewUrl | ButtonReference/src/wwLib/index.js:171 | an unset preview URL is matched as the text `undefined` |
| Element.Decimal | ButtonReference/src/wwLib/index.js:276 | an index key is a non-empty decimal numeral, one digit exactly below 10, ending in the last digit |
| Element.DecimalInjective | ButtonReference/src/wwLib/index.js:276 | distinct indices give distinct keys |
| Element.Spread | ButtonReference/src/wwLib/index.js:276 | spreading an array gives exactly the index keys, each holding its element |
| Element.MarkerIsNoIndex | ButtonReference/src/wwLib/index.js:276 | `isWwObject` is no index key |
| Element.SpreadHasNoMarker | ButtonReference/src/wwLib/index.js:276 | an array spread never supplies `isWwObject` |
| Element.Element | ButtonReference/src/wwLib/index.js:273-280 | an object result always has `isWwObject`. It is true unless an object value overrides it. An object value keeps its fields, and an array's elements sit under their index keys. `null` gives the marker alone. Any other value gives exactly two keys, `isWwObject` and `type`, with `type` holding the value |
| Element.ElementIdempotent | ButtonReference/src/wwLib/index.js:273-280 | wrapping an element again changes nothing |
| PageSanitizer.FirstNullish | ButtonReference/src/wwLib/index.js:383-384 | the section loop meets no nullish section before this index, and a nullish one at it if any |
| PageSanitizer.StrippedWithinTargets | ButtonReference/src/wwLib/index.js:382-385 | only the meta object and section objects can lose `__typename` |
| PageSanitizer.WhitelistShape | ButtonReference/src/wwLib/index.js:363-375 | eleven distinct keys, none of them `__typename`, `path` or `lang` |
| PageSanitizer.Strip | ButtonReference/src/wwLib/index.js:382-384 | deleting `__typename` removes that key and keeps every other |
| PageSanitizer.StripIdempotent | ButtonReference/src/wwLib/index.js:382-384 | deleting twice is deleting once, so a shared object ends the same |
| PageSanitizer.CopiedFields | ButtonReference/src/wwLib/index.js:377-383 | the copy holds the page's own `meta`, `sections` and `paths` |
| PageSanitizer.PickPath | ButtonReference/src/wwLib/index.js:388-389 | the path for the language; no ensures of its own: `PickPathChoice` states which entry it is |
| PageSanitizer.PickPathChoice | ButtonReference/src/wwLib/index.js:388-389 | `null` for a falsy `paths`; for a `paths` object the language's entry when that is truthy, else the `default` entry, so always one of the two |
| PageSanitizer.WhitelistCopy | ButtonReference/src/wwLib/index.js:377-380 | the whitelisted fields of a page; no ensures of its own: `SanitizedShape` and `CopiedFields` state its keys and values |
| PageSanitizer.Sanitized | ButtonReference/src/wwLib/index.js:377-391 | the returned page as a map; no ensures of its own: `SanitizedShape` states its keys and values |
| PageSanitizer.AddPathAndLang | ButtonReference/src/wwLib/index.js:388-391 | sets `path` and `lang` on the new page and leaves its other fields unchanged |
| PageSanitizer.SanitizedShape | ButtonReference/src/wwLib/index.js:363-391 | exactly the eleven whitelisted keys, each the page's value (`undefined` when missing), plus `path` and `lang`; no `__typename` |
| PageSanitizer.CopyWhitelisted | ButtonReference/src/wwLib/index.js:377-380 | the `forEach` fills a new object with the whitelisted fields; the new object is neither the meta object nor a section |
| PageSanitizer.StripSections | ButtonReference/src/wwLib/index.js:383-385 | fails exactly at a nullish section; strips the section objects before it and leaves the others unchanged |
| PageSanitizer.StripPage | ButtonReference/src/wwLib/index.js:382-385 | throws exactly when the section loop does; strips the meta object and the sections reached; leaves every other target unchanged |
| PageSanitizer.Sanitize | ButtonReference/src/wwLib/index.js:362-394 | throws exactly when the section loop does. The meta object and the sections reached lose `__typename` in place, and nothing else changes. On success it returns a new object: the whitelisted fields, `path` (`paths[lang] \|\| paths.default`, or `null` for falsy `paths`) and `lang` |
| EventBus.Emitter.Emit | ButtonReference/src/wwLib/index.js:21-26 | a truthy event is forwarded with its arguments; a falsy one changes nothing |
| EventBus.Forwarded | ButtonReference/src/wwLib/index.js:21-26 | the forwarded log holds exactly the calls with a truthy event |
| EventBus.ForwardedAppend | ButtonReference/src/wwLib/index.js:21-26 | the calls forwarded from two call sequences in turn are those of the first followed by those of the second, so forwarding keeps call order |
| EventBus.Replay | ButtonReference/src/wwLib/index.js:21-26 | successive `$emit` calls forward exactly `Forwarded` of the calls |

## Left out

- `$on`, `$once`, `$off` and the listeners of the shared `tiny-emitter` instance: they forward to a library that is not part of this model. Only the `$emit` guard is modelled, as the log of forwarded calls.
- `initFront`: asynchronous service start-up, router and store wiring, and plugin registration, all of it I/O and ordering.
- `globalContext` and `pageData`: Vue reactive and computed state over the store; their colour, spacing and typography tables are constants.
- `getFrontWindow`, `getFrontDocument`, the `getEditor*` helpers, `useBaseTag` and `useIcons`: DOM, window, environment-variable or Pinia access. The store, `window` and environment values that the modelled helpers read are parameters.
- The deprecated forwarding aliases: they call services that are not part of this model. `element` is the one deprecated helper modelled, without its warning log.
- `ButtonReference/vite.config.js`: build-time file writes and templating.
- The descriptors without `hidden` rules (Sheet, Chart, Carousel, ToggleGroup, RadioGroup, Tooltip, Collapsible, Calendar, Input, Table, Textarea, Tabs, Slider, Checkbox, Alert, Toggle, Progress, Skeleton, Switch, Label, Separator, Pagination, Form, Toast): literal data without behaviour.
- Editor labels, translations, icons and the custom property-order lists: presentation metadata.
- How the editor evaluates `hidden` and merges defaults into content: the host runtime does that, outside this code. The lemmas about defaults assume only that a content holds the declared default.
- Strict equality and `includes` on arrays and objects: they compare identity, which values here do not have, so rule operands on the literal side are primitives (as in every rule).
- Floating-point numbers: a non-integral number is an opaque literal compared by equality, and NaN and Infinity are not values of the model.
- Prototype lookup, getters and the characters of a string read as properties: an object's properties are its own.
- ResponsiveStyle.GetResponsiveStyleProp: a style key is taken to hold an object. A falsy non-object under a media key, which the source skips, is not represented. Non-string states and a `style` argument that is a falsy non-empty value are not represented either.
- PageSanitizer.Sanitize: arrays in page fields are values without identity, so deleting `__typename` on an array is not represented (it has no such key in the model). The language is taken to be a string.
- PageSanitizer.PickPath: a truthy `paths` that is not an object gives `undefined`, so a string or array `paths` indexed by a language is not represented.
- Environment.GetEnvironment: `wwLib.manager`, the host and the environment variables are parameters. Reading globals that are missing (no `window.location`) is not represented.
- BaseTag.GetBaseTag: a missing `window.wwg_designInfo`, which makes the source throw before the `?.`, is not represented; `href` is the value of `baseTag?.href`.
