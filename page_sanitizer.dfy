/**
 * `pageSanitizer` (wwLib/index.js): the page object exposed to
 * formulas.  It copies a whitelist of the page's properties into a new
 * object, deletes `__typename` in place from the page's `meta` object and
 * from each of its sections, which stay shared with the input page, and
 * adds the page path for the current language and the language itself.
 * The current language, read from the store, is a parameter.
 */
module PageSanitizer {
  import opened Wrappers
  import opened Js

  /** A page field: a primitive, a reference to an object (which can be
      shared and mutated), or an array of fields. */
  datatype Field = Prim(v: Primitive) | Obj(o: JsObject) | List(items: seq<Field>)

  /** A plain JavaScript object: its own properties. */
  class JsObject {
    var props: map<string, Field>

    constructor (props: map<string, Field>)
      ensures this.props == props
    {
      this.props := props;
    }
  }

  /** `obj[key]`: a missing property reads as `undefined`. */
  function FieldOf(props: map<string, Field>, key: string): Field {
    if key in props then props[key] else Prim(Undefined)
  }

  predicate FieldTruthy(f: Field) {
    match f
    case Prim(v) => Truthy(v)
    case _ => true
  }

  predicate FieldNullish(f: Field) {
    f.Prim? && IsNullish(f.v)
  }

  /** The page properties the sanitised page keeps, in order. */
  const Whitelist: seq<string> := [
    "id", "name", "folder", "metaImage", "pageLoaded", "paths",
    "langs", "meta", "title", "sections", "pageUserGroups"
  ]

  /** The meta object, when `meta` is one. */
  function MetaObjects(meta: Field): set<JsObject> {
    if meta.Obj? then {meta.o} else {}
  }

  /** The sections when they are an array, else none. */
  function SectionItems(sections: Field): seq<Field> {
    if sections.List? then sections.items else []
  }

  /** The objects among `items`. */
  function ObjectsIn(items: seq<Field>): set<JsObject> {
    set i | 0 <= i < |items| && items[i].Obj? :: items[i].o
  }

  /** The index of the first `null` or `undefined` item, `|items|` when
      there is none. */
  function FirstNullish(items: seq<Field>): (n: nat)
    ensures n <= |items|
    ensures forall i :: 0 <= i < n ==> !FieldNullish(items[i])
    ensures n < |items| ==> FieldNullish(items[n])
  {
    if items == [] then 0
    else if FieldNullish(items[0]) then 0
    else 1 + FirstNullish(items[1..])
  }

  /** Every object the deletions may touch: the meta object and the
      section objects. */
  function TargetsOf(meta: Field, sections: Field): set<JsObject> {
    MetaObjects(meta) + ObjectsIn(SectionItems(sections))
  }

  /** Whether the section loop throws: `for … of` over a truthy value
      that is not iterable (an object, a number, `true`), or a `delete` on
      a `null` or `undefined` section.  A string iterates over its
      characters, and deleting from a primitive does nothing. */
  predicate ThrowsOn(sections: Field) {
    match sections
    case Obj(_) => true
    case Prim(v) => Truthy(v) && !v.Str?
    case List(items) => FirstNullish(items) < |items|
  }

  /** The objects that lose `__typename`: the meta object, then the
      section objects up to the first nullish section. */
  function StrippedBy(meta: Field, sections: Field): set<JsObject> {
    var items := SectionItems(sections);
    MetaObjects(meta) + ObjectsIn(items[..FirstNullish(items)])
  }

  function Targets(props: map<string, Field>): set<JsObject> {
    TargetsOf(FieldOf(props, "meta"), FieldOf(props, "sections"))
  }

  predicate Throws(props: map<string, Field>) {
    ThrowsOn(FieldOf(props, "sections"))
  }

  function Stripped(props: map<string, Field>): set<JsObject> {
    StrippedBy(FieldOf(props, "meta"), FieldOf(props, "sections"))
  }

  /** Only objects in the frame lose `__typename`. */
  lemma StrippedWithinTargets(props: map<string, Field>)
    ensures Stripped(props) <= Targets(props)
  {
    var items := SectionItems(FieldOf(props, "sections"));
    var n := FirstNullish(items);
    forall o | o in ObjectsIn(items[..n])
      ensures o in ObjectsIn(items)
    {
      var i :| 0 <= i < n && items[..n][i].Obj? && items[..n][i].o == o;
      assert items[i] == items[..n][i];
    }
  }

  /** The whitelist has eleven distinct keys, none of them `__typename`,
      `path` or `lang`, so the sanitised page has exactly thirteen keys and
      the added ones overwrite nothing. */
  lemma WhitelistShape()
    ensures |Whitelist| == 11
    ensures forall i, j :: 0 <= i < j < |Whitelist| ==> Whitelist[i] != Whitelist[j]
    ensures "__typename" !in Whitelist && "path" !in Whitelist && "lang" !in Whitelist
  {
  }

  /** `_page.paths ? _page.paths[lang] || _page.paths.default : null`.  A
      truthy `paths` that is not an object (a string, an array) has no
      property named by a language or `default`. */
  function PickPath(paths: Field, lang: string): Field
    reads if paths.Obj? then {paths.o} else {}
  {
    if !FieldTruthy(paths) then Prim(Null)
    else if paths.Obj? then
      var byLang := FieldOf(paths.o.props, lang);
      if FieldTruthy(byLang) then byLang else FieldOf(paths.o.props, "default")
    else Prim(Undefined)
  }

  /** The path is `null` for a falsy `paths`; for a `paths` object it is the
      entry for the language when that is truthy and the `default` entry
      otherwise, so it is always one of those two entries. */
  lemma PickPathChoice(paths: Field, lang: string)
    ensures !FieldTruthy(paths) ==> PickPath(paths, lang) == Prim(Null)
    ensures paths.Obj? && FieldTruthy(FieldOf(paths.o.props, lang)) ==>
              PickPath(paths, lang) == FieldOf(paths.o.props, lang)
    ensures paths.Obj? && !FieldTruthy(FieldOf(paths.o.props, lang)) ==>
              PickPath(paths, lang) == FieldOf(paths.o.props, "default")
    ensures paths.Obj? ==>
              PickPath(paths, lang) == FieldOf(paths.o.props, lang) ||
              PickPath(paths, lang) == FieldOf(paths.o.props, "default")
  {
  }

  /** `delete obj.__typename` on an object's properties. */
  function Strip(props: map<string, Field>): (r: map<string, Field>)
    ensures "__typename" !in r
    ensures forall k :: k in props && k != "__typename" ==> k in r && r[k] == props[k]
    ensures r.Keys <= props.Keys
  {
    props - {"__typename"}
  }

  /** Deleting twice is deleting once, so an object that is both the meta
      object and a section, or two sections, ends the same. */
  lemma StripIdempotent(props: map<string, Field>)
    ensures Strip(Strip(props)) == Strip(props)
  {
    assert Strip(Strip(props)).Keys == Strip(props).Keys;
  }

  lemma ObjectsInStep(items: seq<Field>, j: int)
    requires 0 <= j < |items|
    ensures ObjectsIn(items[..j + 1]) == ObjectsIn(items[..j]) + (if items[j].Obj? then {items[j].o} else {})
  {
    var a, b := items[..j + 1], items[..j];
    assert forall i :: 0 <= i < j ==> a[i] == b[i];
  }

  /** The whitelisted properties of a page, each `undefined` when the page
      lacks it. */
  function WhitelistCopy(props: map<string, Field>): map<string, Field> {
    map k | k in Whitelist :: FieldOf(props, k)
  }

  /** The copy keeps the fields the rest of the sanitiser reads. */
  lemma CopiedFields(props: map<string, Field>)
    ensures WhitelistCopy(props)["meta"] == FieldOf(props, "meta")
    ensures WhitelistCopy(props)["sections"] == FieldOf(props, "sections")
    ensures WhitelistCopy(props)["paths"] == FieldOf(props, "paths")
  {
    assert Whitelist[7] == "meta" && Whitelist[9] == "sections" && Whitelist[5] == "paths";
  }

  /** The sanitised page: the whitelisted properties, then `path` and `lang`. */
  function Sanitized(props: map<string, Field>, path: Field, lang: string): map<string, Field> {
    WhitelistCopy(props)["path" := path]["lang" := Prim(Str(lang))]
  }

  /** The sanitised page has exactly the eleven whitelisted keys, each
      holding the page's value (`undefined` when missing), plus `path` and
      `lang`; it never has `__typename`. */
  lemma SanitizedShape(props: map<string, Field>, path: Field, lang: string)
    ensures Sanitized(props, path, lang).Keys == (set k | k in Whitelist) + {"path", "lang"}
    ensures forall k :: k in Whitelist ==> Sanitized(props, path, lang)[k] == FieldOf(props, k)
    ensures Sanitized(props, path, lang)["path"] == path
    ensures Sanitized(props, path, lang)["lang"] == Prim(Str(lang))
    ensures "__typename" !in Sanitized(props, path, lang)
  {
    WhitelistShape();
  }

  /** `keysToInclude.forEach(key => { _page[key] = page[key]; })` on a new
      object `_page`. */
  method CopyWhitelisted(page: JsObject) returns (out: JsObject)
    ensures fresh(out) && out !in Targets(page.props)
    ensures out.props == WhitelistCopy(page.props)
  {
    out := new JsObject(map[]);
    var i := 0;
    while i < |Whitelist|
      modifies out
      invariant 0 <= i <= |Whitelist|
      invariant out.props == map k | k in Whitelist[..i] :: FieldOf(page.props, k)
    {
      assert Whitelist[..i + 1] == Whitelist[..i] + [Whitelist[i]];
      out.props := out.props[Whitelist[i] := FieldOf(page.props, Whitelist[i])];
      i := i + 1;
    }
    assert Whitelist[..i] == Whitelist;
  }

  /** `for (const section of sections) delete section.__typename` over an
      array: stops with a TypeError (`ok` false) at the first nullish
      section, having stripped the objects before it. */
  method StripSections(items: seq<Field>) returns (ok: bool)
    modifies ObjectsIn(items)
    ensures ok <==> FirstNullish(items) == |items|
    ensures forall o :: o in ObjectsIn(items) ==>
              o.props == if o in ObjectsIn(items[..FirstNullish(items)]) then Strip(old(o.props)) else old(o.props)
  {
    var j := 0;
    while j < |items|
      invariant 0 <= j <= |items|
      invariant forall k :: 0 <= k < j ==> !FieldNullish(items[k])
      invariant forall o :: o in ObjectsIn(items) ==>
                  o.props == if o in ObjectsIn(items[..j]) then Strip(old(o.props)) else old(o.props)
    {
      var section := items[j];
      if FieldNullish(section) {
        return false;
      }
      ObjectsInStep(items, j);
      if section.Obj? {
        StripIdempotent(old(section.o.props));
        section.o.props := Strip(section.o.props);
      }
      j := j + 1;
    }
    assert items[..j] == items;
    return true;
  }

  /** `_page.meta && delete _page.meta.__typename`, then the section loop
      over `_page.sections || []`; `ok` is false when the loop throws. */
  method StripPage(meta: Field, sections: Field) returns (ok: bool)
    modifies TargetsOf(meta, sections)
    ensures ok <==> !ThrowsOn(sections)
    ensures forall o :: o in TargetsOf(meta, sections) ==>
              o.props == if o in StrippedBy(meta, sections) then Strip(old(o.props)) else old(o.props)
  {
    if meta.Obj? {
      meta.o.props := Strip(meta.o.props);
    }
    if !FieldTruthy(sections) {
      return true;
    }
    match sections {
      case Obj(_) =>
        return false;
      case Prim(v) =>
        return v.Str?;
      case List(items) =>
        forall o | o in MetaObjects(meta) {
          StripIdempotent(old(o.props));
        }
        ok := StripSections(items);
    }
  }

  /** `_page.path = …; _page.lang = lang`. */
  method AddPathAndLang(out: JsObject, path: Field, lang: string)
    modifies out
    ensures out.props == old(out.props)["path" := path]["lang" := Prim(Str(lang))]
  {
    out.props := out.props["path" := path]["lang" := Prim(Str(lang))];
  }

  /** The model of `pageSanitizer`. */
  method Sanitize(page: JsObject, lang: string) returns (r: Result<JsObject, Exception>)
    modifies Targets(page.props)
    ensures r.Failure? <==> Throws(old(page.props))
    ensures forall o :: o in old(Targets(page.props)) ==>
              o.props == if o in old(Stripped(page.props)) then Strip(old(o.props)) else old(o.props)
    ensures r.Success? ==> fresh(r.value)
    ensures r.Success? ==>
              r.value.props == Sanitized(old(page.props), PickPath(FieldOf(old(page.props), "paths"), lang), lang)
  {
    ghost var props0 := page.props;
    var out := CopyWhitelisted(page);
    CopiedFields(props0);
    ghost var copy := out.props;
    var meta, sections, paths := out.props["meta"], out.props["sections"], out.props["paths"];
    assert TargetsOf(meta, sections) == Targets(props0);
    var ok := StripPage(meta, sections);
    if !ok {
      return Failure(TypeError);
    }
    assert out.props == copy;
    var path := PickPath(paths, lang);
    AddPathAndLang(out, path, lang);
    assert path == PickPath(paths, lang);
    return Success(out);
  }
}
