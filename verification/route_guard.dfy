/**
 * The request middleware's routing decision: signed-in users are sent away
 * from the sign-in pages, anonymous users away from the account pages. The
 * session lookup is an input: `signedIn` says whether it found a user.
 */
module RouteGuard {
  import opened Text

  const AuthRoutes: seq<string> := ["/login", "/sign-up", "/forgot-password"]
  const ProtectedRoutes: seq<string> := ["/dashboard", "/profile", "/settings"]

  /** Auth pages are matched by equality. */
  predicate IsAuthRoute(path: string) {
    path == "/login" || path == "/sign-up" || path == "/forgot-password"
  }

  /** `protectedRoutes.some(route => path.startsWith(route))` */
  function StartsWithAny(path: string, routes: seq<string>): (b: bool)
    ensures b <==> exists i :: 0 <= i < |routes| && StartsWith(path, routes[i])
  {
    if |routes| == 0 then false
    else StartsWith(path, routes[0]) || StartsWithAny(path, routes[1..])
  }

  predicate IsProtected(path: string) {
    StartsWithAny(path, ProtectedRoutes)
  }

  datatype Decision = Redirect(target: string) | PassThrough

  /** `updateSession`'s decision for a request path. */
  function Guard(path: string, signedIn: bool): (d: Decision)
    ensures path in AuthRoutes && signedIn <==> d == Redirect("/")
    ensures d == Redirect("/login") <==>
              !signedIn && exists i :: 0 <= i < |ProtectedRoutes| && StartsWith(path, ProtectedRoutes[i])
    ensures d.PassThrough? || d == Redirect("/") || d == Redirect("/login")
  {
    if IsAuthRoute(path) && signedIn then Redirect("/")
    else if IsProtected(path) && !signedIn then Redirect("/login")
    else PassThrough
  }

  /** At most one redirect fires, and never the wrong one: a signed-in user is never
      sent to the sign-in page, an anonymous user never to the home page. */
  lemma RedirectMatchesSession(path: string, signedIn: bool)
    ensures signedIn ==> Guard(path, signedIn) != Redirect("/login")
    ensures !signedIn ==> Guard(path, signedIn) != Redirect("/")
  {
  }

  /** Following a redirect never leads to another one. */
  lemma {:induction false} RedirectSettles(path: string, signedIn: bool)
    ensures Guard(path, signedIn).Redirect? ==> Guard(Guard(path, signedIn).target, signedIn).PassThrough?
  {
    var d := Guard(path, signedIn);
    if d == Redirect("/login") {
      assert !StartsWith("/login", ProtectedRoutes[0]);
      assert !StartsWith("/login", ProtectedRoutes[1]);
      assert !StartsWith("/login", ProtectedRoutes[2]);
    } else if d == Redirect("/") {
      assert !IsAuthRoute("/");
    }
  }

  /** Protection is a prefix match: extending a protected path keeps it protected
      (so `/settingsX` is protected), whereas an auth route followed by anything
      more is no longer an auth route. */
  lemma ProtectionExtends(path: string, suffix: string)
    requires IsProtected(path)
    ensures IsProtected(path + suffix)
  {
    var i :| 0 <= i < |ProtectedRoutes| && StartsWith(path, ProtectedRoutes[i]);
    assert (path + suffix)[..|ProtectedRoutes[i]|] == path[..|ProtectedRoutes[i]|];
  }

  lemma AuthRouteIsExact(suffix: string)
    requires suffix != ""
    ensures !IsAuthRoute("/login" + suffix)
    ensures !IsAuthRoute("/sign-up" + suffix)
    ensures !IsAuthRoute("/forgot-password" + suffix)
  {
    assert |"/login" + suffix| > |"/login"|;
    assert ("/login" + suffix)[1] == 'l';
    assert ("/sign-up" + suffix)[1] == 's';
    assert ("/forgot-password" + suffix)[1] == 'f';
  }

  /** The two kinds of route never overlap. */
  lemma AuthRoutesUnprotected(path: string)
    requires IsAuthRoute(path)
    ensures !IsProtected(path)
  {
    assert path[1] in "lsf";
    assert ProtectedRoutes[0][1] == 'd' && ProtectedRoutes[1][1] == 'p' && ProtectedRoutes[2][1] == 's';
    if path == "/sign-up" {
      assert path[2] == 'i' && ProtectedRoutes[2][2] == 'e';
    }
  }

  // ---------------------------------------------------------------------
  // The matcher: which requests reach the middleware at all
  // ---------------------------------------------------------------------

  predicate EndsWith(s: string, t: string) {
    |t| <= |s| && s[|s| - |t|..] == t
  }

  /** The image suffixes the matcher leaves out. */
  predicate IsAssetName(rest: string) {
    EndsWith(rest, ".svg") || EndsWith(rest, ".png") || EndsWith(rest, ".jpg")
    || EndsWith(rest, ".jpeg") || EndsWith(rest, ".gif") || EndsWith(rest, ".webp")
  }

  /** `favicon.ico` in the pattern, whose `.` matches any character. */
  predicate IsFaviconLike(rest: string) {
    |rest| >= 11 && rest[..7] == "favicon" && rest[8..11] == "ico"
  }

  /** The middleware's path matcher: a path `/rest` is handled unless `rest` starts
      with `_next/static`, `_next/image` or the favicon name, or ends in an image
      suffix. Read on the whole path, the pattern skips `/_next/static…`,
      `/_next/image…`, `/favicon?ico…` and any path ending in an image suffix. */
  function Matched(path: string): (b: bool)
    ensures b ==> |path| > 0 && path[0] == '/'
    ensures |path| > 0 && path[0] == '/' ==>
              (b <==> !StartsWith(path, "/_next/static") && !StartsWith(path, "/_next/image")
                      && !(|path| >= 12 && StartsWith(path, "/favicon") && path[9..12] == "ico")
                      && !IsAssetName(path))
  {
    if |path| > 0 && path[0] == '/' then
      MatchedRestOnPath(path);
      MatchedRest(path[1..])
    else false
  }

  /** The pattern's negative lookahead, on the path after its leading slash. */
  predicate MatchedRest(rest: string) {
    !StartsWith(rest, "_next/static") && !StartsWith(rest, "_next/image")
    && !IsFaviconLike(rest) && !IsAssetName(rest)
  }

  /** The lookahead on `rest` read back on the whole path `/rest`. */
  lemma MatchedRestOnPath(path: string)
    requires |path| > 0 && path[0] == '/'
    ensures MatchedRest(path[1..]) <==>
              !StartsWith(path, "/_next/static") && !StartsWith(path, "/_next/image")
              && !(|path| >= 12 && StartsWith(path, "/favicon") && path[9..12] == "ico")
              && !IsAssetName(path)
  {
    SlashPrefix(path, "_next/static");
    assert "/" + "_next/static" == "/_next/static";
    SlashPrefix(path, "_next/image");
    assert "/" + "_next/image" == "/_next/image";
    SlashFavicon(path);
    SlashAsset(path);
  }

  /** Prefixes, the favicon name and image suffixes carry over between `rest` and
      `/rest`. */
  lemma SlashPrefix(path: string, p: string)
    requires |path| > 0 && path[0] == '/'
    ensures StartsWith(path[1..], p) <==> StartsWith(path, "/" + p)
  {
    if StartsWith(path[1..], p) {
      assert path[..|p| + 1] == [path[0]] + path[1..][..|p|];
    }
    if StartsWith(path, "/" + p) {
      assert path[1..][..|p|] == path[..|p| + 1][1..];
    }
  }

  lemma SlashFavicon(path: string)
    requires |path| > 0 && path[0] == '/'
    ensures IsFaviconLike(path[1..]) <==> |path| >= 12 && StartsWith(path, "/favicon") && path[9..12] == "ico"
  {
    SlashPrefix(path, "favicon");
    assert "/" + "favicon" == "/favicon";
    if |path| >= 12 {
      assert path[1..][..7] == path[1..8];
      assert path[1..][8..11] == path[9..12];
    }
  }

  lemma SlashSuffix(path: string, t: string)
    requires |path| > 0 && path[0] == '/' && |t| > 0 && t[0] == '.'
    ensures EndsWith(path[1..], t) <==> EndsWith(path, t)
  {
    if |t| <= |path| - 1 {
      assert path[1..][|path| - 1 - |t|..] == path[|path| - |t|..];
    }
  }

  lemma SlashAsset(path: string)
    requires |path| > 0 && path[0] == '/'
    ensures IsAssetName(path[1..]) <==> IsAssetName(path)
  {
    SlashSuffix(path, ".svg");
    SlashSuffix(path, ".png");
    SlashSuffix(path, ".jpg");
    SlashSuffix(path, ".jpeg");
    SlashSuffix(path, ".gif");
    SlashSuffix(path, ".webp");
  }

  /** What a request meets: paths outside the matcher pass untouched; the others
      get `updateSession`'s decision. */
  function Middleware(path: string, signedIn: bool): (d: Decision)
    ensures !Matched(path) ==> d == PassThrough
    ensures Matched(path) ==> d == Guard(path, signedIn)
    ensures d.Redirect? ==> Matched(path) && (IsAuthRoute(path) || IsProtected(path))
  {
    if Matched(path) then Guard(path, signedIn) else PassThrough
  }

  /** An image under a protected prefix is served without a session: the matcher
      keeps it away from the guard that would redirect a page at the same path. */
  lemma ProtectedImageBypassesGuard()
    ensures Guard("/dashboard/logo.png", false) == Redirect("/login")
    ensures Middleware("/dashboard/logo.png", false) == PassThrough
  {
    assert StartsWith("/dashboard/logo.png", ProtectedRoutes[0]);
    assert EndsWith("dashboard/logo.png", ".png");
  }

  /** Every page path without a dot, outside `/_next/` and the favicon, reaches the
      guard: the matcher changes nothing for the application's own pages. */
  lemma PagesReachGuard(path: string, signedIn: bool)
    requires |path| > 0 && path[0] == '/'
    requires forall i :: 0 <= i < |path| ==> path[i] != '.'
    requires !StartsWith(path, "/_next/") && !StartsWith(path, "/favicon")
    ensures Middleware(path, signedIn) == Guard(path, signedIn)
  {
    PrefixUnderSlash(path, "_next/static", 6);
    PrefixUnderSlash(path, "_next/image", 6);
    FaviconUnderSlash(path);
    NoAssetWithoutDot(path);
  }

  lemma FaviconUnderSlash(path: string)
    requires |path| > 0 && path[0] == '/'
    ensures IsFaviconLike(path[1..]) ==> StartsWith(path, "/favicon")
  {
    if IsFaviconLike(path[1..]) {
      assert path[..8] == [path[0]] + path[1..][..7];
    }
  }

  lemma NoAssetWithoutDot(path: string)
    requires |path| > 0
    requires forall i :: 0 <= i < |path| ==> path[i] != '.'
    ensures !IsAssetName(path[1..])
  {
    var rest := path[1..];
    if |rest| >= 4 {
      assert rest[|rest| - 4] == path[|path| - 4];
    }
    if |rest| >= 5 {
      assert rest[|rest| - 5] == path[|path| - 5];
    }
  }

  /** Behind the matcher, too, following a redirect never leads to another one. */
  lemma MiddlewareSettles(path: string, signedIn: bool)
    ensures Middleware(path, signedIn).Redirect? ==>
              Middleware(Middleware(path, signedIn).target, signedIn).PassThrough?
  {
    RedirectSettles(path, signedIn);
  }

  /** A path `/rest` whose `rest` starts with `p` starts with `/` and the first `k`
      characters of `p`. */
  lemma PrefixUnderSlash(path: string, p: string, k: nat)
    requires |path| > 0 && path[0] == '/' && k <= |p|
    ensures StartsWith(path[1..], p) ==> StartsWith(path, "/" + p[..k])
  {
    if StartsWith(path[1..], p) {
      assert path[..k + 1] == [path[0]] + path[1..][..k];
    }
  }
}
