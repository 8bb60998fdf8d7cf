/** The two normalisers of stored media paths in the video controller:
    toPublicUrlPath turns a stored path into the path the static server
    serves under /public, and toPublicDbPath into the "public/..." form kept
    in the database. Both leave the empty text alone, turn backslashes into
    slashes and keep http(s) URLs (cloud storage) as they are. */
module PublicPaths {

  import opened Strings

  const PublicMarker: string := "/public/"
  const PublicPrefix: string := "public/"

  /** toPublicUrlPath. */
  function PublicUrlPath(path: string): (r: string)
    ensures path == [] ==> r == []
    ensures path != [] ==> NoBackslash(r)
  {
    if path == [] then path
    else
      WithSlashesFacts(path);
      UrlOfNormalized(WithSlashes(path))
  }

  /** toPublicUrlPath after its backslashes have been replaced. */
  function UrlOfNormalized(n: string): (r: string)
    ensures NoBackslash(n) ==> NoBackslash(r)
  {
    if IsHttpUrl(n) then n
    else
      var idx := LastIndexOf(n, PublicMarker);
      if idx != -1 then n[idx + |PublicMarker|..]
      else if StartsWith(n, PublicPrefix) then n[|PublicPrefix|..]
      else if StartsWith(n, "/") then ""
      else n
  }

  /** toPublicDbPath. */
  function PublicDbPath(path: string): (r: string)
    ensures path == [] ==> r == []
    ensures path != [] ==> NoBackslash(r)
  {
    if path == [] then path
    else
      WithSlashesFacts(path);
      DbOfNormalized(WithSlashes(path))
  }

  /** toPublicDbPath after its backslashes have been replaced. */
  function DbOfNormalized(n: string): (r: string)
    ensures NoBackslash(n) ==> NoBackslash(r)
    ensures n != [] ==> r != []
  {
    if IsHttpUrl(n) then n
    else
      var idx := LastIndexOf(n, PublicMarker);
      if idx != -1 then n[idx + 1..]
      else n
  }

  /** The database form of a path under a public directory is the URL
      path with "public/" in front; every other path is stored in its
      normalised form. */
  lemma DbPathAddsPublicPrefix(path: string)
    requires path != [] && !IsHttpUrl(WithSlashes(path))
    ensures var n := WithSlashes(path);
            && (LastIndexOf(n, PublicMarker) != -1 ==> PublicDbPath(path) == PublicPrefix + PublicUrlPath(path))
            && (LastIndexOf(n, PublicMarker) == -1 ==> PublicDbPath(path) == n)
  {
    var n := WithSlashes(path);
    var idx := LastIndexOf(n, PublicMarker);
    if idx != -1 {
      MarkerThenRest(n, idx);
    }
  }

  /** Text from a "/public/" marker on: the marker, then the rest. */
  lemma MarkerThenRest(n: string, idx: int)
    requires MarkerAt(n, PublicMarker, idx)
    ensures n[idx + 1..] == PublicPrefix + n[idx + |PublicMarker|..]
    ensures n[idx + 1] == 'p'
  {
    assert PublicMarker[1..] == PublicPrefix;
    assert n[idx + 1..idx + |PublicMarker|] == n[idx..idx + |PublicMarker|][1..];
    assert n[idx + 1..] == n[idx + 1..idx + |PublicMarker|] + n[idx + |PublicMarker|..];
  }

  /** Text that starts with 'p' is no http(s) URL. */
  lemma NotHttp(d: string)
    requires |d| > 0 && d[0] == 'p'
    ensures !IsHttpUrl(d)
  {
    assert Lower(d[0]) == 'p';
  }

  /** A path outside every public directory is served from nowhere when it
      is absolute, and as it stands when it is relative. */
  lemma UrlPathOutsidePublic(path: string)
    requires path != [] && !IsHttpUrl(WithSlashes(path))
    requires LastIndexOf(WithSlashes(path), PublicMarker) == -1 && !StartsWith(WithSlashes(path), PublicPrefix)
    ensures StartsWith(WithSlashes(path), "/") ==> PublicUrlPath(path) == ""
    ensures !StartsWith(WithSlashes(path), "/") ==> PublicUrlPath(path) == WithSlashes(path)
  {
  }

  /** The round trip the controller relies on: storing a path in database
      form and later turning it into a URL path gives the same URL path as
      converting the original directly. */
  lemma UrlPathOfDbPath(path: string)
    ensures PublicUrlPath(PublicDbPath(path)) == PublicUrlPath(path)
  {
    if path != [] {
      var n := WithSlashes(path);
      WithSlashesFacts(path);
      var d := DbOfNormalized(n);
      WithSlashesFacts(d);
      NormalizedRoundTrip(n);
    }
  }

  lemma NormalizedRoundTrip(n: string)
    ensures UrlOfNormalized(DbOfNormalized(n)) == UrlOfNormalized(n)
  {
    if !IsHttpUrl(n) {
      var idx := LastIndexOf(n, PublicMarker);
      if idx != -1 {
        var d := n[idx + 1..];
        MarkedStaysPublic(n, idx);
        assert d[|PublicPrefix|..] == n[idx + |PublicMarker|..];
      }
    }
  }

  /** The database form cut at the last marker: "public/" then the rest,
      no further marker, and no URL. */
  lemma MarkedStaysPublic(n: string, idx: int)
    requires idx == LastIndexOf(n, PublicMarker) && idx != -1
    ensures var d := n[idx + 1..];
            && StartsWith(d, PublicPrefix) && d[|PublicPrefix|..] == n[idx + |PublicMarker|..]
            && !IsHttpUrl(d) && LastIndexOf(d, PublicMarker) == -1
  {
    var d := n[idx + 1..];
    MarkerThenRest(n, idx);
    NotHttp(d);
    NothingAfterLast(n, PublicMarker, idx + 1);
    assert d[..|PublicPrefix|] == PublicPrefix;
  }

  /** Normalising twice changes nothing more. */
  lemma DbPathIdempotent(path: string)
    ensures PublicDbPath(PublicDbPath(path)) == PublicDbPath(path)
  {
    if path != [] {
      var n := WithSlashes(path);
      WithSlashesFacts(path);
      var d := DbOfNormalized(n);
      WithSlashesFacts(d);
      if !IsHttpUrl(n) {
        var idx := LastIndexOf(n, PublicMarker);
        if idx != -1 {
          MarkedStaysPublic(n, idx);
        }
      }
    }
  }
}
