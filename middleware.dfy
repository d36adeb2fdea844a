/** Route gating. The matcher decides which paths the middleware sees at
    all; for those, login and auth pages and static assets always pass,
    and every other path passes with a session token and is sent to
    `/login` without one. */
module Middleware {
  import opened Text

  datatype Decision = Next | RedirectToLogin

  /** The extensions of `/\.(png|jpe?g|svg|gif|webp|js|css)$/`. */
  const AssetSuffixes: seq<string> := [".png", ".jpg", ".jpeg", ".svg", ".gif", ".webp", ".js", ".css"]

  predicate IsStaticAsset(pathname: string) {
    exists i | 0 <= i < |AssetSuffixes| :: EndsWith(pathname, AssetSuffixes[i])
  }

  /** The paths the middleware lets through without looking at the token. */
  predicate IsPublic(pathname: string) {
    StartsWith(pathname, "/login") || StartsWith(pathname, "/auth") || IsStaticAsset(pathname)
  }

  /** `middleware`, with `getToken` reduced to whether a token was found. */
  function Decide(pathname: string, hasToken: bool): (d: Decision)
    ensures d == RedirectToLogin <==> !IsPublic(pathname) && !hasToken
  {
    if IsPublic(pathname) then Next
    else if !hasToken then RedirectToLogin
    else Next
  }

  /** `.` in the matcher pattern stands for any character. */
  predicate MatchesWildcard(s: string, pattern: string) {
    |pattern| <= |s| && forall k | 0 <= k < |pattern| :: pattern[k] == '.' || s[k] == pattern[k]
  }

  /** `config.matcher`: `/((?!api|_next/static|_next/image|favicon.ico).*)`.
      The lookahead tests only the start of what follows the leading `/`. */
  predicate Matched(pathname: string) {
    && |pathname| >= 1 && pathname[0] == '/'
    && var rest := pathname[1..];
       !(StartsWith(rest, "api") || StartsWith(rest, "_next/static") || StartsWith(rest, "_next/image")
         || MatchesWildcard(rest, "favicon.ico"))
  }

  /** What a request ends with: unmatched paths never reach the
      middleware. */
  function Gate(pathname: string, hasToken: bool): (d: Decision)
    ensures d == RedirectToLogin <==> Matched(pathname) && !IsPublic(pathname) && !hasToken
  {
    if Matched(pathname) then Decide(pathname, hasToken) else Next
  }

  /** A session token always gets through. */
  lemma TokenAlwaysPasses(pathname: string)
    ensures Gate(pathname, true) == Next
  {
  }

  /** A public path gets through whatever the token state. */
  lemma PublicPathsPass(pathname: string, hasToken: bool)
    requires IsPublic(pathname)
    ensures Decide(pathname, hasToken) == Next
  {
  }

  /** Any path with one of the asset extensions is public, wherever it
      lies. */
  lemma AssetSuffixMakesPublic(stem: string, i: nat)
    requires i < |AssetSuffixes|
    ensures IsPublic(stem + AssetSuffixes[i])
  {
    var p := stem + AssetSuffixes[i];
    assert p[|p| - |AssetSuffixes[i]|..] == AssetSuffixes[i];
  }

  /** The login and auth tests are prefix tests: `/login` followed by
      anything is public. */
  lemma LoginPrefixIsPublic(rest: string)
    ensures IsPublic("/login" + rest)
  {
    assert ("/login" + rest)[..|"/login"|] == "/login";
  }

  /** Every path under `/api` bypasses the middleware, and so does any
      path whose first segment only starts with `api`. */
  lemma ApiPrefixIsUnmatched(rest: string)
    ensures !Matched("/api" + rest)
    ensures Gate("/api" + rest, false) == Next
  {
    var p := "/api" + rest;
    assert p[1..][..3] == "api";
  }

  /** The dot in `favicon.ico` is a wildcard, so `/faviconXico` is not
      matched either. */
  lemma FaviconDotIsWildcard(c: char, rest: string)
    ensures !Matched("/favicon" + [c] + "ico" + rest)
  {
    var p := "/favicon" + [c] + "ico" + rest;
    assert MatchesWildcard(p[1..], "favicon.ico") by {
      assert p[1..][..11] == "favicon" + [c] + "ico";
    }
  }

  /** A page such as `/orders` is guarded: without a token it redirects. */
  lemma PagesAreGuarded(rest: string)
    requires forall k | 0 <= k < |rest| :: rest[k] != '.'
    ensures Gate("/orders" + rest, false) == RedirectToLogin
  {
    var p := "/orders" + rest;
    assert p[1] == 'o';
    assert !StartsWith(p, "/login") by { assert p[1] != 'l'; }
    assert !StartsWith(p, "/auth") by { assert p[1] != 'a'; }
    assert !IsStaticAsset(p) by {
      forall i | 0 <= i < |AssetSuffixes|
        ensures !EndsWith(p, AssetSuffixes[i])
      {
        var s := AssetSuffixes[i];
        assert s[0] == '.';
      }
    }
    assert !StartsWith(p[1..], "api") && !StartsWith(p[1..], "_next/static") && !StartsWith(p[1..], "_next/image");
    assert !MatchesWildcard(p[1..], "favicon.ico") by { assert p[1..][0] == 'o'; }
  }
}
