/**
 * The route guard (middleware.ts): from the request path and the `jwt_token`
 * cookie to a redirect or a pass-through.
 */
module Middleware {
  import opened Optional
  import Text

  datatype Decision = RedirectTo(target: string) | Pass

  const LoginPath := "/login"
  const RegisterPath := "/register"
  const DiaryPath := "/diary"

  /** Only the login and register pages are public. */
  predicate IsPublicPath(path: string)
  {
    path == LoginPath || path == RegisterPath
  }

  /** The cookie's value, a missing cookie reading as the empty token. */
  function CookieToken(cookie: Option<string>): (token: string)
    ensures cookie.None? ==> token == ""
  {
    cookie.GetOr("")
  }

  /**
   * The guard: a signed-in visitor of a public page goes to the diary list, a
   * visitor without a token of any other page goes to the login page, every
   * other request passes.
   */
  function Guard(path: string, cookie: Option<string>): (d: Decision)
    ensures d == RedirectTo(DiaryPath) <==> IsPublicPath(path) && CookieToken(cookie) != ""
    ensures d == RedirectTo(LoginPath) <==> !IsPublicPath(path) && CookieToken(cookie) == ""
    ensures d == Pass <==> (IsPublicPath(path) <==> CookieToken(cookie) == "")
  {
    var token := CookieToken(cookie);
    if IsPublicPath(path) && token != "" then RedirectTo(DiaryPath)
    else if !IsPublicPath(path) && token == "" then RedirectTo(LoginPath)
    else Pass
  }

  /** The guard never redirects twice: its target, with the same cookie, passes. */
  lemma NoRedirectLoop(path: string, cookie: Option<string>)
    ensures Guard(path, cookie).RedirectTo? ==> Guard(Guard(path, cookie).target, cookie) == Pass
  {
  }

  /** The routes the guard runs on: `/diary/:path*`, `/login` and `/register`. */
  predicate Matched(path: string)
  {
    path == LoginPath || path == RegisterPath || path == DiaryPath || Text.StartsWith(path, DiaryPath + "/")
  }

  /** What a request meets: the guard on a matched route, a pass-through elsewhere. */
  function Route(path: string, cookie: Option<string>): (d: Decision)
    ensures !Matched(path) ==> d == Pass
    ensures d.RedirectTo? ==> Matched(d.target) && Guard(d.target, cookie) == Pass
  {
    if Matched(path) then Guard(path, cookie) else Pass
  }
}
