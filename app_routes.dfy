/**
 * The client's routes: the guard for pages that need a signed-in user, the
 * guard for pages only for visitors, and the route table with its
 * fallbacks. Both guards decide on the token and the loading flag alone.
 */
module AppRoutes {
  import opened Wrappers
  import opened Text

  datatype Page = LoginPage | RegisterPage | DashboardPage

  /** What a route shows: the spinner, a redirect, or a page (inside the layout or bare). */
  datatype View = Spinner | Redirect(to: string) | Render(page: Page, inLayout: bool)

  /** `ProtectedRoute`: the spinner while loading, else /login without a token, else the page in the layout. */
  function ProtectedRoute(page: Page, token: Option<string>, isLoading: bool): (v: View)
    ensures isLoading ==> v == Spinner
    ensures !isLoading && !Truthy(token) ==> v == Redirect("/login")
    ensures !isLoading && Truthy(token) ==> v == Render(page, true)
  {
    if isLoading then Spinner
    else if !Truthy(token) then Redirect("/login")
    else Render(page, true)
  }

  /** `PublicRoute`: the spinner while loading, else /dashboard with a token, else the bare page. */
  function PublicRoute(page: Page, token: Option<string>, isLoading: bool): (v: View)
    ensures isLoading ==> v == Spinner
    ensures !isLoading && Truthy(token) ==> v == Redirect("/dashboard")
    ensures !isLoading && !Truthy(token) ==> v == Render(page, false)
  {
    if isLoading then Spinner
    else if Truthy(token) then Redirect("/dashboard")
    else Render(page, false)
  }

  /** An ASCII capital letter in lower case; every other character as it is. */
  function LowerChar(c: char): (r: char)
    ensures !('A' <= r <= 'Z')
    ensures !('A' <= c <= 'Z') ==> r == c
  {
    if 'A' <= c <= 'Z' then (c as int - 'A' as int + 'a' as int) as char else c
  }

  function Lower(s: string): (r: string)
    ensures |r| == |s| && forall i :: 0 <= i < |s| ==> r[i] == LowerChar(s[i])
  {
    seq(|s|, i requires 0 <= i < |s| => LowerChar(s[i]))
  }

  /** The path without the trailing slashes a route pattern tolerates. */
  function DropTrailingSlashes(s: string): (r: string)
    ensures r <= s && (r == [] || r[|r| - 1] != '/')
    ensures forall i :: |r| <= i < |s| ==> s[i] == '/'
  {
    if s != [] && s[|s| - 1] == '/' then DropTrailingSlashes(s[..|s| - 1]) else s
  }

  /**
   * The form in which a path is compared with a route pattern: the router
   * matches without regard to the case of letters and accepts any number of
   * trailing slashes.
   */
  function Canonical(path: string): string {
    Lower(DropTrailingSlashes(path))
  }

  /** A path already in canonical form is its own canonical form. */
  lemma {:induction false} CanonicalOfCanonical(s: string)
    requires s == [] || s[|s| - 1] != '/'
    requires forall i :: 0 <= i < |s| ==> !('A' <= s[i] <= 'Z')
    ensures Canonical(s) == s
  {
    assert DropTrailingSlashes(s) == s;
  }

  /**
   * The route table: two visitor pages and one signed-in page, each matched
   * on the canonical path, and every other path (including "/") sent to
   * /dashboard.
   */
  function Route(path: string, token: Option<string>, isLoading: bool): (v: View)
    ensures Canonical(path) !in {"/login", "/register", "/dashboard"} ==> v == Redirect("/dashboard")
    ensures v.Render? ==> !isLoading && (v.inLayout <==> Truthy(token))
  {
    var key := Canonical(path);
    if key == "/login" then PublicRoute(LoginPage, token, isLoading)
    else if key == "/register" then PublicRoute(RegisterPage, token, isLoading)
    else if key == "/dashboard" then ProtectedRoute(DashboardPage, token, isLoading)
    else Redirect("/dashboard")
  }

  /** A trailing slash does not change what a path shows. */
  lemma {:induction false} TrailingSlashIgnored(path: string, token: Option<string>, isLoading: bool)
    ensures Route(path + "/", token, isLoading) == Route(path, token, isLoading)
  {
    assert (path + "/")[..|path|] == path;
    assert DropTrailingSlashes(path + "/") == DropTrailingSlashes(path);
  }

  /** Dropping trailing slashes commutes with lower-casing, which leaves '/' alone. */
  lemma {:induction false} DropLower(s: string)
    ensures DropTrailingSlashes(Lower(s)) == Lower(DropTrailingSlashes(s))
    decreases |s|
  {
    if s != [] && s[|s| - 1] == '/' {
      assert Lower(s)[..|s| - 1] == Lower(s[..|s| - 1]);
      DropLower(s[..|s| - 1]);
    }
  }

  /** The case of the letters does not change what a path shows. */
  lemma {:induction false} CaseIgnored(path: string, token: Option<string>, isLoading: bool)
    ensures Route(Lower(path), token, isLoading) == Route(path, token, isLoading)
  {
    DropLower(path);
    var d := DropTrailingSlashes(path);
    assert Lower(Lower(d)) == Lower(d);
  }

  /** Once loading is over, for any token exactly one of the two guards renders its page. */
  lemma ExactlyOneGuardRenders(p: Page, q: Page, token: Option<string>)
    ensures ProtectedRoute(p, token, false).Render? != PublicRoute(q, token, false).Render?
  {
  }

  /**
   * Redirects settle: once loading is over, from any path at most two
   * redirects lead to a rendered page, the dashboard with a token and the
   * login page without one.
   */
  lemma {:induction false} RedirectsSettle(path: string, token: Option<string>)
    ensures var v1 := Route(path, token, false);
      v1.Render? ||
      (v1.Redirect? &&
        var v2 := Route(v1.to, token, false);
        v2.Render? || (v2.Redirect? && Route(v2.to, token, false).Render?))
    ensures var v1 := Route(path, token, false);
      var v2 := if v1.Redirect? then Route(v1.to, token, false) else v1;
      var v3 := if v2.Redirect? then Route(v2.to, token, false) else v2;
      v3 == if Truthy(token) then Render(DashboardPage, true)
            else if Canonical(path) == "/register" then Render(RegisterPage, false)
            else Render(LoginPage, false)
  {
    CanonicalOfCanonical("/dashboard");
    CanonicalOfCanonical("/login");
    assert "/dashboard" != "/login" && "/dashboard" != "/register";
    assert "/login" != "/register";
  }
}
