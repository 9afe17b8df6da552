/**
 * The entry point of the original JavaScript client (APIBuilder.js): an optional base URL
 * override, and `build`, which validates the version and the token and assembles the
 * request context every API module receives.
 */
module ApiBuilder {
  import opened Wrappers
  import opened Urls

  const V2_BASE_URL: string := "https://app.resemble.ai/api/v2/"

  /** An argument as JavaScript sees it: a string, or any value of another type. */
  datatype JsValue = JsString(s: string) | NotAString

  predicate NonEmptyString(v: JsValue)
  {
    v.JsString? && |v.s| > 0
  }

  /** The errors `setBaseUrl` and `build` throw. */
  datatype BuildError =
    | InvalidBaseUrl
    | InvalidToken
    | InvalidVersion
      // a truthy `VERSIONS[apiVersion]` that has no `exports`: `require(undefined)` throws
    | NoVersionModule

  /** The keys every object literal inherits from `Object.prototype`; `VERSIONS[k]` is truthy for each. */
  const INHERITED_KEYS: set<string> := {
    "constructor", "hasOwnProperty", "isPrototypeOf", "propertyIsEnumerable", "toLocaleString",
    "toString", "valueOf", "__proto__", "__defineGetter__", "__defineSetter__",
    "__lookupGetter__", "__lookupSetter__"
  }

  /** What `VERSIONS[v]` yields. */
  datatype VersionEntry = Version(baseUrl: string) | Inherited | Absent

  function LookupVersion(v: string): (r: VersionEntry)
    ensures r.Version? <==> v == "v2"
    ensures r.Absent? <==> v != "v2" && v !in INHERITED_KEYS
  {
    if v == "v2" then Version(V2_BASE_URL)
    else if v in INHERITED_KEYS then Inherited
    else Absent
  }

  /** The part of the context `build` hands to the version's module that the model keeps. */
  datatype Api = Api(headers: map<string, string>, appUrl: string)

  function RequestHeaders(apiToken: string): map<string, string>
  {
    map["Authorization" := "Token token=" + apiToken, "Content-Type" := "application/json"]
  }

  /**
   * `build(apiVersion, apiToken)` given the module's `baseUrl` (`None` for `null`): the token
   * is checked first, then the version; only "v2" yields a context.
   */
  function Build(apiVersion: JsValue, apiToken: JsValue, baseUrl: Option<string>): (r: Result<Api, BuildError>)
    ensures r == Failure(InvalidToken) <==> !NonEmptyString(apiToken)
    ensures r == Failure(InvalidVersion) <==>
      NonEmptyString(apiToken) && !(NonEmptyString(apiVersion) && (apiVersion.s == "v2" || apiVersion.s in INHERITED_KEYS))
    ensures r == Failure(NoVersionModule) <==>
      NonEmptyString(apiToken) && apiVersion.JsString? && apiVersion.s in INHERITED_KEYS
    ensures r.Success? <==> NonEmptyString(apiToken) && apiVersion == JsString("v2")
    ensures r.Success? ==> r.value.headers.Keys == {"Authorization", "Content-Type"}
    ensures r.Success? ==> r.value.headers["Authorization"] == "Token token=" + apiToken.s
    ensures r.Success? ==> r.value.headers["Content-Type"] == "application/json"
    // the override wins when it is set (and, as JavaScript tests it, non-empty)
    ensures r.Success? && baseUrl.Some? && baseUrl.value != "" ==> r.value.appUrl == baseUrl.value
    ensures r.Success? && !(baseUrl.Some? && baseUrl.value != "") ==> r.value.appUrl == V2_BASE_URL
  {
    if !NonEmptyString(apiToken) then Failure(InvalidToken)
    else if !NonEmptyString(apiVersion) || LookupVersion(apiVersion.s).Absent? then Failure(InvalidVersion)
    else match LookupVersion(apiVersion.s)
      case Version(versionUrl) =>
        var appUrl := if baseUrl.Some? && baseUrl.value != "" then baseUrl.value else versionUrl;
        Success(Api(RequestHeaders(apiToken.s), appUrl))
      case _ => Failure(NoVersionModule)
  }

  /** `api(path)`: the application URL, then the path as given. */
  function Url(api: Api, path: string): (r: string)
    ensures |r| == |api.appUrl| + |path|
    ensures r[..|api.appUrl|] == api.appUrl && r[|api.appUrl|..] == path
  {
    api.appUrl + path
  }

  /** Whatever the token, no version other than "v2" builds. */
  lemma OnlyV2Builds(apiVersion: JsValue, apiToken: JsValue, baseUrl: Option<string>)
    requires Build(apiVersion, apiToken, baseUrl).Success?
    ensures apiVersion == JsString("v2") && NonEmptyString(apiToken)
  {
  }

  /** After `setBaseUrl(u)`, every URL of a built context is the normalised override followed by the path. */
  lemma OverrideUrl(u: string, apiToken: string, path: string)
    requires |u| > 0 && |apiToken| > 0
    ensures var r := Build(JsString("v2"), JsString(apiToken), Some(WithTrailingSlash(u)));
      && r.Success?
      && Url(r.value, path) == WithTrailingSlash(u) + path
      && Url(r.value, path)[|WithTrailingSlash(u)| - 1] == '/'
  {
    var w := WithTrailingSlash(u);
    var r := Build(JsString("v2"), JsString(apiToken), Some(w));
    assert Url(r.value, path)[|w| - 1] == w[|w| - 1];
  }

  /** The module-level `baseUrl` that `setBaseUrl` assigns. */
  class Builder {
    var baseUrl: Option<string>

    /** An override, once set, is non-empty and ends with a slash. */
    ghost predicate Valid()
      reads this
    {
      baseUrl.Some? ==> baseUrl.value != "" && EndsWithSlash(baseUrl.value)
    }

    constructor ()
      ensures Valid() && baseUrl == None
    {
      baseUrl := None;
    }

    /** `setBaseUrl(url)`: throws for a non-string or empty URL; otherwise stores it with a trailing slash. */
    method SetBaseUrl(url: JsValue) returns (r: Outcome<BuildError>)
      requires Valid()
      modifies this
      ensures Valid()
      ensures r.Fail? <==> !NonEmptyString(url)
      ensures r.Fail? ==> r.error == InvalidBaseUrl && baseUrl == old(baseUrl)
      ensures r.Pass? ==> baseUrl == Some(WithTrailingSlash(url.s))
    {
      if !NonEmptyString(url) {
        return Fail(InvalidBaseUrl);
      }
      var u := url.s;
      if !EndsWithSlash(u) {
        u := u + "/";
      }
      baseUrl := Some(u);
      return Pass;
    }
  }
}
