/** The front end's link to media served by the backend (placeholder.ts):
    the backend origin is the first configured base URL with its "/api/v1"
    path removed, and a stored media path becomes a URL under that origin. */
module AssetUrl {

  import opened Strings
  import PublicPaths

  const ApiPath: string := "/api/v1"
  const DefaultOrigin: string := "http://localhost:8000"

  /** replace(/\/api\/v1\/?$/, ""): drop a trailing "/api/v1" or "/api/v1/". */
  function WithoutApiPath(base: string): (r: string)
    ensures base == r + ApiPath + "/" || base == r + ApiPath || (base == r && !EndsWith(base, ApiPath) && !EndsWith(base, ApiPath + "/"))
  {
    if EndsWith(base, ApiPath + "/") then
      assert base == base[..|base| - 8] + base[|base| - 8..];
      base[..|base| - 8]
    else if EndsWith(base, ApiPath) then
      assert base == base[..|base| - 7] + base[|base| - 7..];
      base[..|base| - 7]
    else base
  }

  /** Removing the API path undoes appending it, with or without the
      trailing slash. */
  lemma WithoutApiPathUndoesAppend(origin: string)
    ensures WithoutApiPath(origin + ApiPath) == origin
    ensures WithoutApiPath(origin + ApiPath + "/") == origin
  {
    var a := origin + ApiPath;
    assert a[|a| - 7..] == ApiPath;
    assert a[|a| - 1] == '1';
    var b := origin + ApiPath + "/";
    assert b[|b| - 8..] == ApiPath + "/";
  }

  /** backendOrigin: the API client's base URL, else the backend URL from
      the environment, else the API URL from the environment, each without
      its API path; the local default when none is set. */
  function BackendOrigin(clientBase: string, backendUrl: string, apiUrl: string): (r: string)
    ensures clientBase != [] ==> r == WithoutApiPath(clientBase)
    ensures clientBase == [] && backendUrl != [] ==> r == WithoutApiPath(backendUrl)
    ensures clientBase == [] && backendUrl == [] && apiUrl != [] ==> r == WithoutApiPath(apiUrl)
    ensures clientBase == [] && backendUrl == [] && apiUrl == [] ==> r == DefaultOrigin
  {
    if clientBase != [] then WithoutApiPath(clientBase)
    else if backendUrl != [] then WithoutApiPath(backendUrl)
    else if apiUrl != [] then WithoutApiPath(apiUrl)
    else DefaultOrigin
  }

  /** A base URL configured as an origin followed by "/api/v1", with or
      without a trailing slash, yields that origin, whichever of the three
      settings supplies it first. */
  lemma ConfiguredOriginIsRecovered(origin: string, other: string)
    ensures BackendOrigin(origin + ApiPath, other, other) == origin
    ensures BackendOrigin(origin + ApiPath + "/", other, other) == origin
    ensures BackendOrigin("", origin + ApiPath, other) == origin
    ensures BackendOrigin("", "", origin + ApiPath + "/") == origin
  {
    WithoutApiPathUndoesAppend(origin);
  }

  /** replace(/^\//, ""): drop one leading slash. */
  function WithoutLeadingSlash(s: string): string
  {
    if |s| > 0 && s[0] == '/' then s[1..] else s
  }

  /** toBackendAssetUrl; a missing path is the empty text. */
  function BackendAssetUrl(origin: string, path: string): (r: string)
    ensures path == [] ==> r == []
    ensures path != [] && IsHttpUrl(path) ==> r == path
  {
    if path == [] then ""
    else if IsHttpUrl(path) then path
    else
      var normalized := WithoutLeadingSlash(WithSlashes(path));
      var rest := if StartsWith(normalized, PublicPaths.PublicPrefix) then normalized[|PublicPaths.PublicPrefix|..]
                  else normalized;
      origin + "/" + rest
  }

  /** Any other path lands under the origin, with no backslash left in it. */
  lemma AssetUrlIsUnderOrigin(origin: string, path: string)
    requires path != [] && !IsHttpUrl(path)
    ensures var r := BackendAssetUrl(origin, path);
            && StartsWith(r, origin + "/")
            && NoBackslash(r[|origin| + 1..])
  {
    WithSlashesFacts(path);
    var r := BackendAssetUrl(origin, path);
    assert r[..|origin| + 1] == origin + "/";
  }

  /** A path stored in database form links to the backend's static copy of
      the file: the origin followed by the controller's URL path. */
  lemma StoredPathLinksToPublicUrl(origin: string, path: string)
    requires path != [] && !IsHttpUrl(WithSlashes(path))
    requires LastIndexOf(WithSlashes(path), PublicPaths.PublicMarker) != -1
    ensures BackendAssetUrl(origin, PublicPaths.PublicDbPath(path)) == origin + "/" + PublicPaths.PublicUrlPath(path)
  {
    var d := PublicPaths.PublicDbPath(path);
    var u := PublicPaths.PublicUrlPath(path);
    PublicPaths.DbPathAddsPublicPrefix(path);
    assert d == PublicPaths.PublicPrefix + u;
    assert d[0] == 'p';
    PublicPaths.NotHttp(d);
    WithSlashesFacts(d);
    assert WithoutLeadingSlash(WithSlashes(d)) == d;
    assert d[..|PublicPaths.PublicPrefix|] == PublicPaths.PublicPrefix;
    assert d[|PublicPaths.PublicPrefix|..] == u;
  }
}
