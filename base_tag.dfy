/**
 * `getBaseTag` (wwLib/index.js): the site's base path, taken from the
 * design info's `baseTag.href` and given a leading and a trailing `/`.
 * The global `window.wwg_designInfo` is a parameter: `href` is the value of
 * `baseTag?.href`, `undefined` when the base tag or its `href` is missing.
 */
module BaseTag {
  import opened Wrappers
  import opened Js

  predicate StartsWithSlash(s: string) {
    |s| > 0 && s[0] == '/'
  }

  predicate EndsWithSlash(s: string) {
    |s| > 0 && s[|s| - 1] == '/'
  }

  /** A normal base path starts and ends with `/` (`/` itself is one). */
  predicate IsBasePath(s: string) {
    StartsWithSlash(s) && EndsWithSlash(s)
  }

  /** `s` with a `/` put in front when it lacks one, then at the end when
      that lacks one. */
  function Normalised(s: string): (t: string)
    ensures IsBasePath(t)
    ensures |t| == |s| + (if StartsWithSlash(s) then 0 else 1) + (if EndsWithSlash(s) || s == "" then 0 else 1)
    ensures StartsWithSlash(s) ==> t[..|s|] == s
    ensures !StartsWithSlash(s) ==> t[1..|s| + 1] == s
    ensures t == s <==> IsBasePath(s)
  {
    var lead := if StartsWithSlash(s) then s else "/" + s;
    if EndsWithSlash(lead) then lead else lead + "/"
  }

  /** Normalising a normal base path changes nothing, so normalising twice
      is normalising once. */
  lemma NormalisedIdempotent(s: string)
    ensures Normalised(Normalised(s)) == Normalised(s)
  {
  }

  /** The string `href || ''` names: `''` for a falsy `href`, the string
      itself for a string. */
  function HrefString(href: Value): string {
    if href.Str? then href.s else ""
  }

  /** The model of `getBaseTag`.  A truthy `href` that is not a string has
      no `startsWith` method, and calling it throws. */
  method GetBaseTag(href: Value) returns (r: Result<string, Exception>)
    ensures r.Failure? <==> Truthy(href) && !href.Str?
    ensures r.Success? ==> r.value == Normalised(HrefString(href))
    ensures r.Success? && !Truthy(href) ==> r.value == "/"
  {
    var baseTag: string;
    if Truthy(href) {
      if !href.Str? {
        return Failure(TypeError);
      }
      baseTag := href.s;
    } else {
      baseTag := "";
    }
    if !StartsWithSlash(baseTag) {
      baseTag := "/" + baseTag;
    }
    if !EndsWithSlash(baseTag) {
      baseTag := baseTag + "/";
    }
    return Success(baseTag);
  }
}
