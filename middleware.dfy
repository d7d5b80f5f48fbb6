/** The routing decision of src/middleware.ts, taken for every page request
    from the path and the `formwave_token` cookie. */
module Middleware {
  import opened Wrappers
  import opened Text

  datatype Decision = Next | Redirect(to: string)

  /** The cookie holds a usable token (`!token` is false). */
  predicate HasToken(token: Option<string>) { token.Some? && token.value != "" }

  /** Static assets, framework internals and API routes. */
  predicate Skipped(path: string) {
    StartsWith(path, "/_next") || StartsWith(path, "/api") || Contains(path, ".") || path == "/favicon.ico"
  }

  predicate IsAuthPath(path: string) { StartsWith(path, "/login") || StartsWith(path, "/register") }

  predicate IsProtectedPath(path: string) {
    StartsWith(path, "/dashboard") || StartsWith(path, "/forms/builder")
  }

  /** middleware */
  function Route(path: string, token: Option<string>): (d: Decision)
    ensures path == "/" ==> d == Next
    ensures Skipped(path) ==> d == Next
    ensures d == Redirect("/login") <==>
              path != "/" && !Skipped(path) && IsProtectedPath(path) && !HasToken(token)
    ensures d == Redirect("/dashboard") <==>
              path != "/" && !Skipped(path) && IsAuthPath(path) && HasToken(token)
    ensures d.Redirect? ==> d.to == "/login" || d.to == "/dashboard"
  {
    if path == "/" then Next
    else if Skipped(path) then Next
    else if IsProtectedPath(path) && !HasToken(token) then Redirect("/login")
    else if IsAuthPath(path) && HasToken(token) then Redirect("/dashboard")
    else Next
  }

  /** Two prefixes that differ in their second character cannot both start a path. */
  lemma PrefixesExclude(path: string, p: string, q: string)
    requires |p| >= 2 && |q| >= 2 && p[1] != q[1]
    ensures StartsWith(path, p) ==> !StartsWith(path, q)
  {
    if StartsWith(path, p) {
      assert path[1] == p[1] by { assert path[..|p|][1] == path[1]; }
    }
  }

  /** No path is both protected and an auth path, so the two redirects never
      compete and at most one of them applies. */
  lemma ProtectedAndAuthDisjoint(path: string)
    ensures !(IsProtectedPath(path) && IsAuthPath(path))
  {
    PrefixesExclude(path, "/dashboard", "/login");
    PrefixesExclude(path, "/dashboard", "/register");
    PrefixesExclude(path, "/forms/builder", "/login");
    PrefixesExclude(path, "/forms/builder", "/register");
  }

  /** A signed-in user reaches every protected page, and a visitor without a
      token reaches every login and register page. */
  lemma NoRedirectWhenAllowed(path: string, token: Option<string>)
    ensures IsProtectedPath(path) && HasToken(token) ==> Route(path, token) == Next
    ensures IsAuthPath(path) && !HasToken(token) ==> Route(path, token) == Next
  {
    ProtectedAndAuthDisjoint(path);
  }
}
