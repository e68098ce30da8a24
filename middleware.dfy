/**
 * The edge middleware: one routing decision per request, from whether
 * the request carries a `mydms_session` cookie and from its pathname.
 */
module Middleware {
  import opened Common

  /** What the middleware answers: a redirect, letting the request
      through, or serving another path in place of the one asked for. */
  datatype Decision = Redirect(to: string) | Next | Rewrite(to: string)

  const SessionCookie: string := "mydms_session"

  /** The extensions the static-file pattern accepts, compared
      case-sensitively. */
  const StaticExtensions: seq<string> := ["css", "js", "png", "jpg", "jpeg", "gif", "svg", "woff", "woff2", "ttf", "ico"]

  /** `/\.(css|js|...|ico)$/`: the path ends in a dot and one of the
      extensions. */
  predicate IsStaticFile(pathname: string) {
    exists k :: 0 <= k < |StaticExtensions| && EndsWith(pathname, "." + StaticExtensions[k])
  }

  /** The paths let through without a session: API and docbox prefixes
      and static files.  The prefix tests are plain `startsWith`. */
  predicate IsPublic(pathname: string) {
    StartsWith(pathname, "/api") || StartsWith(pathname, "/docbox") || IsStaticFile(pathname)
  }

  /** The decision for a request with these cookies and this path.  A
      session on a `/login` path goes home; any other session, or a public
      path, goes through; everything else is served the login page. */
  function Route(cookies: map<string, string>, pathname: string): (d: Decision)
    ensures d == Redirect("/") <==> SessionCookie in cookies && StartsWith(pathname, "/login")
    ensures d == Next <==>
      (SessionCookie in cookies && !StartsWith(pathname, "/login")) || (SessionCookie !in cookies && IsPublic(pathname))
    ensures d == Rewrite("/login") <==> SessionCookie !in cookies && !IsPublic(pathname)
    ensures d == Redirect("/") || d == Next || d == Rewrite("/login")
  {
    var hasSession := SessionCookie in cookies;
    if hasSession && StartsWith(pathname, "/login") then Redirect("/")
    else if hasSession || IsPublic(pathname) then Next
    else Rewrite("/login")
  }

  /** The decision depends on the cookies only through the presence of
      the session cookie; its value, even an empty one, plays no part. */
  lemma RouteSeesOnlySessionPresence(c1: map<string, string>, c2: map<string, string>, pathname: string)
    requires SessionCookie in c1 <==> SessionCookie in c2
    ensures Route(c1, pathname) == Route(c2, pathname)
  {
  }

  /** The edges of the prefix and extension tests. */
  lemma RouteExamples()
    ensures Route(map[SessionCookie := ""], "/loginx") == Redirect("/")
    ensures Route(map[], "/apiary") == Next
    ensures Route(map[], "/login") == Rewrite("/login")
    ensures Route(map[], "/styles/app.css") == Next
    ensures Route(map[], "/logo.PNG") == Rewrite("/login")
  {
    assert StartsWith("/loginx", "/login");
    assert StartsWith("/apiary", "/api");
    assert EndsWith("/styles/app.css", "." + StaticExtensions[0]);
    LoginPageNotPublic();
    UpperCaseExtensionNotPublic();
  }

  lemma LoginPageNotPublic()
    ensures !IsPublic("/login")
  {
    var login := "/login";
    assert login[1] == 'l';
    assert !StartsWith(login, "/api") && !StartsWith(login, "/docbox");
    forall k | 0 <= k < |StaticExtensions|
      ensures !EndsWith(login, "." + StaticExtensions[k])
    {
      var ext := "." + StaticExtensions[k];
      if |ext| <= |login| {
        assert login[|login| - |ext|] != '.';
      }
    }
  }

  lemma UpperCaseExtensionNotPublic()
    ensures !IsPublic("/logo.PNG")
  {
    var upper := "/logo.PNG";
    assert upper[1] == 'l';
    assert !StartsWith(upper, "/api") && !StartsWith(upper, "/docbox");
    forall k | 0 <= k < |StaticExtensions|
      ensures !EndsWith(upper, "." + StaticExtensions[k])
    {
      var ext := "." + StaticExtensions[k];
      if |ext| <= |upper| {
        assert upper[|upper| - |ext|..][|ext| - 1] == 'G';
      }
    }
  }
}
