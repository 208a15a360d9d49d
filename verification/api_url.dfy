/** The client's API address: the configured base (or the local default) and
    `getApiUrl`, which joins it to an endpoint with exactly one slash taken
    off each side of the join. The environment variable is a parameter. */
module ApiUrl {
  import opened Common

  const DefaultApiUrl := "http://localhost:5000/api"

  /** `process.env.NEXT_PUBLIC_API_URL || default`. */
  function ConfiguredApiUrl(env: string): (r: string)
    ensures r != ""
    ensures env != "" ==> r == env
  {
    OrElse(env, DefaultApiUrl)
  }

  /** The base without one trailing slash. */
  function TrimTrailingSlash(s: string): (r: string)
    ensures EndsWith(s, "/") ==> r + "/" == s
    ensures !EndsWith(s, "/") ==> r == s
  {
    if EndsWith(s, "/") then s[..|s| - 1] else s
  }

  /** The endpoint without one leading slash. */
  function TrimLeadingSlash(s: string): (r: string)
    ensures StartsWith(s, "/") ==> "/" + r == s
    ensures !StartsWith(s, "/") ==> r == s
  {
    if StartsWith(s, "/") then s[1..] else s
  }

  /** `getApiUrl(endpoint)` against the base `apiUrl`. */
  function GetApiUrl(apiUrl: string, endpoint: string): (r: string)
    ensures StartsWith(r, if EndsWith(apiUrl, "/") then apiUrl else apiUrl + "/")
    ensures EndsWith(r, if StartsWith(endpoint, "/") then endpoint else "/" + endpoint)
    ensures |r| == |apiUrl| + 1 + |endpoint| - (if EndsWith(apiUrl, "/") then 1 else 0)
                   - (if StartsWith(endpoint, "/") then 1 else 0)
  {
    TrimTrailingSlash(apiUrl) + "/" + TrimLeadingSlash(endpoint)
  }

  /** A leading slash on the endpoint makes no difference. */
  lemma LeadingSlashIgnored(apiUrl: string, endpoint: string)
    requires !StartsWith(endpoint, "/")
    ensures GetApiUrl(apiUrl, "/" + endpoint) == GetApiUrl(apiUrl, endpoint)
  {
    assert StartsWith("/" + endpoint, "/");
    assert ("/" + endpoint)[1..] == endpoint;
  }

  /** A trailing slash on the base makes no difference. */
  lemma TrailingSlashIgnored(apiUrl: string, endpoint: string)
    requires !EndsWith(apiUrl, "/")
    ensures GetApiUrl(apiUrl + "/", endpoint) == GetApiUrl(apiUrl, endpoint)
  {
    var b := apiUrl + "/";
    assert EndsWith(b, "/") by {
      assert b[|b| - 1..] == "/";
    }
    assert b[..|b| - 1] == apiUrl;
  }

  /** Only one slash is taken off: a doubled slash still leaves one extra. */
  lemma OnlyOneSlashDropped(apiUrl: string, endpoint: string)
    requires !StartsWith(endpoint, "/")
    ensures GetApiUrl(apiUrl, "//" + endpoint) == TrimTrailingSlash(apiUrl) + "//" + endpoint
  {
    var e := "//" + endpoint;
    assert StartsWith(e, "/");
    assert e[1..] == "/" + endpoint;
    assert GetApiUrl(apiUrl, e) == TrimTrailingSlash(apiUrl) + "/" + ("/" + endpoint);
  }

  /** Base and endpoint without slashes at the join are recovered from the URL. */
  lemma SplitBack(apiUrl: string, endpoint: string)
    requires !EndsWith(apiUrl, "/") && !StartsWith(endpoint, "/")
    ensures var r := GetApiUrl(apiUrl, endpoint);
            r[..|apiUrl|] == apiUrl && r[|apiUrl|] == '/' && r[|apiUrl| + 1..] == endpoint
  {
    var r := GetApiUrl(apiUrl, endpoint);
    assert r == apiUrl + "/" + endpoint;
  }
}
