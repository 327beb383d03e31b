/**
 * `getEnvironment` (wwLib/index.js): classifies where the application
 * runs.  The globals it reads are parameters: `manager` is `wwLib.manager`,
 * `host` is `window.location.host`, `wwEnv` is `process.env.WW_ENV` and
 * `previewUrl` is `import.meta.env.VITE_APP_PREVIEW_URL` (None when unset).
 */
module Environment {
  import opened Wrappers
  import opened Js

  datatype Env = Editor | Staging | Preview | Production

  /** JavaScript's conversion of an optional string to a string: an unset
      variable is `undefined`, which reads as the text `undefined` both in
      `+` and as the argument of `includes`. */
  function JsString(v: Option<string>): string {
    match v
    case Some(s) => s
    case None => "undefined"
  }

  /** `t` occurs in `s` at offset `i`. */
  predicate OccursAt(s: string, t: string, i: int) {
    0 <= i <= |s| - |t| && s[i..i + |t|] == t
  }

  /** `s.includes(t)`: `t` occurs in `s` at some offset. */
  predicate Contains(s: string, t: string) {
    exists i :: 0 <= i <= |s| && OccursAt(s, t, i)
  }

  /** The text the staging test looks for: `-staging.` followed by the
      preview URL in a staging build, and nothing more otherwise. */
  function StagingNeedle(wwEnv: Option<string>, previewUrl: Option<string>): (needle: string)
    ensures |needle| >= 9 && needle[..9] == "-staging."
    ensures wwEnv != Some("staging") ==> needle == "-staging."
    ensures wwEnv == Some("staging") ==> needle[9..] == JsString(previewUrl)
  {
    "-staging." + (if wwEnv == Some("staging") then JsString(previewUrl) else "")
  }

  /** The model of `getEnvironment`: the first test that holds wins, in the
      order editor, staging, preview. */
  function GetEnvironment(manager: Value, host: string, wwEnv: Option<string>, previewUrl: Option<string>): Env {
    if Truthy(manager) then Editor
    else if Contains(host, StagingNeedle(wwEnv, previewUrl)) then Staging
    else if Contains(host, JsString(previewUrl)) then Preview
    else Production
  }

  /** A text that contains `a + b` contains `a` and contains `b`. */
  lemma ContainsParts(s: string, a: string, b: string)
    requires Contains(s, a + b)
    ensures Contains(s, a) && Contains(s, b)
  {
    var i :| 0 <= i <= |s| && OccursAt(s, a + b, i);
    assert |a + b| == |a| + |b|;
    assert s[i..i + |a|] == (a + b)[..|a|] == a;
    assert OccursAt(s, a, i);
    assert s[i + |a|..i + |a| + |b|] == (a + b)[|a|..] == b;
    assert OccursAt(s, b, i + |a|);
  }

  /** The empty text occurs in every text. */
  lemma ContainsEmpty(s: string)
    ensures Contains(s, "")
  {
    assert OccursAt(s, "", 0);
  }

  /** The classification by precedence: each environment holds exactly when
      its own test holds and every earlier one fails. */
  lemma Precedence(manager: Value, host: string, wwEnv: Option<string>, previewUrl: Option<string>)
    ensures GetEnvironment(manager, host, wwEnv, previewUrl) == Editor <==> Truthy(manager)
    ensures GetEnvironment(manager, host, wwEnv, previewUrl) == Staging <==>
              !Truthy(manager) && Contains(host, StagingNeedle(wwEnv, previewUrl))
    ensures GetEnvironment(manager, host, wwEnv, previewUrl) == Preview <==>
              !Truthy(manager) && !Contains(host, StagingNeedle(wwEnv, previewUrl)) &&
              Contains(host, JsString(previewUrl))
    ensures GetEnvironment(manager, host, wwEnv, previewUrl) == Production <==>
              !Truthy(manager) && !Contains(host, StagingNeedle(wwEnv, previewUrl)) &&
              !Contains(host, JsString(previewUrl))
  {
  }

  /** Staging requires `-staging.` in the host, whatever the build. */
  lemma StagingHostMarked(manager: Value, host: string, wwEnv: Option<string>, previewUrl: Option<string>)
    requires GetEnvironment(manager, host, wwEnv, previewUrl) == Staging
    ensures Contains(host, "-staging.")
  {
    var needle := StagingNeedle(wwEnv, previewUrl);
    assert needle == "-staging." + needle[9..];
    ContainsParts(host, "-staging.", needle[9..]);
  }

  /** In a staging build a host classified as staging also contains the
      preview URL: the staging test is the stricter of the two, so it has
      to come first. */
  lemma StagingBuildStagingHostContainsPreview(manager: Value, host: string, previewUrl: Option<string>)
    requires GetEnvironment(manager, host, Some("staging"), previewUrl) == Staging
    ensures Contains(host, JsString(previewUrl))
  {
    ContainsParts(host, "-staging.", JsString(previewUrl));
  }

  /** With an empty preview URL every host outside the editor is staging or
      preview, never production: every text includes `''`. */
  lemma EmptyPreviewUrlNeverProduction(manager: Value, host: string, wwEnv: Option<string>)
    ensures GetEnvironment(manager, host, wwEnv, Some("")) != Production
    ensures !Truthy(manager) && !Contains(host, StagingNeedle(wwEnv, Some(""))) ==>
              GetEnvironment(manager, host, wwEnv, Some("")) == Preview
  {
    ContainsEmpty(host);
  }

  /** An unset preview URL is looked for as the text `undefined`. */
  lemma UnsetPreviewUrl(manager: Value, host: string)
    requires !Truthy(manager) && !Contains(host, "-staging.")
    ensures GetEnvironment(manager, host, None, None) == Preview <==> Contains(host, "undefined")
  {
  }
}
