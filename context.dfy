/**
 * The request context of the v2 client (context.ts): the API key, the two base URLs,
 * the two header dictionaries derived from the key, and the two URL builders.
 */
module Context {
  import opened Urls

  const DEFAULT_BASE_URL: string := "https://app.resemble.ai/api/"
  const CONTENT_TYPE: string := "Content-Type"
  const AUTHORIZATION: string := "Authorization"
  const ACCESS_TOKEN: string := "x-access-token"
  const APPLICATION_JSON: string := "application/json"

  /** The headers for the application API, for a given key. */
  function AppHeaders(apiKey: string): map<string, string>
  {
    map[CONTENT_TYPE := APPLICATION_JSON, AUTHORIZATION := "Token token=" + apiKey]
  }

  /** The headers for the synthesis server, for a given key. */
  function SynthesisHeaders(apiKey: string): map<string, string>
  {
    map[CONTENT_TYPE := APPLICATION_JSON, AUTHORIZATION := "Bearer " + apiKey, ACCESS_TOKEN := apiKey]
  }

  /** The module-level state of context.ts. */
  class Context {
    var apiKey: string
    var baseUrl: string
    var synthesisServerUrl: string
    var headers: map<string, string>
    var synthesisServerHeaders: map<string, string>

    /**
     * Both header dictionaries always carry the current key, and the base URL always ends
     * with a slash (the synthesis URL too, once set).
     */
    ghost predicate Valid()
      reads this
    {
      && headers == AppHeaders(apiKey)
      && synthesisServerHeaders == SynthesisHeaders(apiKey)
      && EndsWithSlash(baseUrl)
      && (synthesisServerUrl == "" || EndsWithSlash(synthesisServerUrl))
    }

    /** The module's initial values (an empty key). */
    constructor ()
      ensures Valid()
      ensures apiKey == "" && baseUrl == DEFAULT_BASE_URL && synthesisServerUrl == ""
    {
      apiKey := "";
      baseUrl := DEFAULT_BASE_URL;
      synthesisServerUrl := "";
      headers := AppHeaders("");
      synthesisServerHeaders := SynthesisHeaders("");
    }

    /** `setBaseUrl`: the URL, with a slash appended unless it already ends with one. */
    method SetBaseUrl(url: string)
      requires Valid()
      modifies this
      ensures Valid()
      ensures baseUrl == WithTrailingSlash(url)
      ensures apiKey == old(apiKey) && synthesisServerUrl == old(synthesisServerUrl)
    {
      baseUrl := url;
      if !EndsWithSlash(url) {
        baseUrl := baseUrl + "/";
      }
    }

    /** `setApiKey`: the key and the three header entries derived from it; `Content-Type` stays. */
    method SetApiKey(key: string)
      requires Valid()
      modifies this
      ensures Valid()
      ensures apiKey == key
      ensures headers[AUTHORIZATION] == "Token token=" + key && headers[CONTENT_TYPE] == old(headers[CONTENT_TYPE])
      ensures synthesisServerHeaders[AUTHORIZATION] == "Bearer " + key && synthesisServerHeaders[ACCESS_TOKEN] == key
      ensures synthesisServerHeaders[CONTENT_TYPE] == old(synthesisServerHeaders[CONTENT_TYPE])
      ensures baseUrl == old(baseUrl) && synthesisServerUrl == old(synthesisServerUrl)
    {
      apiKey := key;
      headers := headers[AUTHORIZATION := "Token token=" + key];
      synthesisServerHeaders := synthesisServerHeaders[AUTHORIZATION := "Bearer " + key];
      synthesisServerHeaders := synthesisServerHeaders[ACCESS_TOKEN := key];
    }

    /** `setSynthesisUrl`: normalised like the base URL. */
    method SetSynthesisUrl(url: string)
      requires Valid()
      modifies this
      ensures Valid()
      ensures synthesisServerUrl == WithTrailingSlash(url)
      ensures apiKey == old(apiKey) && baseUrl == old(baseUrl)
    {
      synthesisServerUrl := url;
      if !EndsWithSlash(url) {
        synthesisServerUrl := synthesisServerUrl + "/";
      }
    }

    /**
     * `endpoint(version, endpoint)`: the base URL, the version and a slash, then the path
     * with one leading slash dropped.
     */
    function Endpoint(version: string, endpoint: string): (r: string)
      reads this
      ensures |r| >= |baseUrl| + |version| + 1
      ensures r[..|baseUrl|] == baseUrl && r[|baseUrl|..|baseUrl| + |version| + 1] == version + "/"
      ensures StartsWithSlash(endpoint) ==> "/" + r[|baseUrl| + |version| + 1..] == endpoint
      ensures !StartsWithSlash(endpoint) ==> r[|baseUrl| + |version| + 1..] == endpoint
    {
      baseUrl + version + "/" + StripLeadingSlash(endpoint)
    }

    /** `synServerUrl(endpoint)`: the synthesis URL, then the path with one leading slash dropped. */
    function SynServerUrl(endpoint: string): (r: string)
      reads this
      ensures |r| >= |synthesisServerUrl| && r[..|synthesisServerUrl|] == synthesisServerUrl
      ensures StartsWithSlash(endpoint) ==> "/" + r[|synthesisServerUrl|..] == endpoint
      ensures !StartsWithSlash(endpoint) ==> r[|synthesisServerUrl|..] == endpoint
    {
      synthesisServerUrl + StripLeadingSlash(endpoint)
    }

    /** A path with or without one leading slash names the same endpoint. */
    lemma EndpointIgnoresLeadingSlash(version: string, p: string)
      requires !StartsWithSlash(p)
      ensures Endpoint(version, "/" + p) == Endpoint(version, p)
      ensures SynServerUrl("/" + p) == SynServerUrl(p)
    {
      StripLeadingSlashOnce(p);
    }

    /** Under the invariant, the base URL and the version are separated from what precedes them by exactly one slash. */
    lemma EndpointShape(version: string, endpoint: string)
      requires Valid()
      ensures var r := Endpoint(version, endpoint);
        && r[|baseUrl| - 1] == '/'
        && r[|baseUrl| + |version|] == '/'
        && (StartsWithSlash(endpoint) && !StartsWithSlash(endpoint[1..]) ==> !StartsWithSlash(r[|baseUrl| + |version| + 1..]))
    {
      var r := Endpoint(version, endpoint);
      assert r[|baseUrl| - 1] == r[..|baseUrl|][|baseUrl| - 1];
      assert r[|baseUrl| + |version|] == r[|baseUrl|..|baseUrl| + |version| + 1][|version|];
    }
  }
}
