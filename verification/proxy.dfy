/**
  The request gate in front of every route: an ordered chain of checks on the
  path and on the `auth-token` cookie. Token verification (a JWT signature
  check) is a parameter; the cookie deletion on a bad token is an output flag.
*/
module Proxy {
  import opened Wrappers
  import Js

  const PublicRoutes: seq<string> := ["/", "/login", "/register"]
  const PublicApiRoutes: seq<string> := ["/api/auth/login", "/api/auth/register", "/api/health", "/api/dashboard", "/api/relatorios"]

  const NaoAutenticado := "Não autenticado"
  const TokenInvalido := "Token inválido"

  /** Let the request through, answer 401 with a JSON error, or redirect to /login. */
  datatype Outcome = Next | Unauthorized(error: string, deleteCookie: bool) | RedirectLogin(deleteCookie: bool)

  /** A public page: exact match only. */
  predicate IsPublicPage(path: string) {
    path in PublicRoutes
  }

  /** A public API route: any path that starts with one of the prefixes. */
  predicate IsPublicApi(path: string) {
    exists route | route in PublicApiRoutes :: Js.StartsWith(path, route)
  }

  /** Next.js internals and anything that looks like a file name. */
  predicate IsStatic(path: string) {
    Js.StartsWith(path, "/_next") || Js.StartsWith(path, "/api/_next") || Js.Includes(path, '.')
  }

  /** Paths that pass without looking at the cookie. */
  predicate IsOpen(path: string) {
    IsPublicPage(path) || IsPublicApi(path) || IsStatic(path)
  }

  predicate IsApi(path: string) {
    Js.StartsWith(path, "/api/")
  }

  /** A missing cookie and an empty one are both falsy. */
  predicate HasToken(token: Option<string>) {
    token.Some? && token.value != ""
  }

  /**
    The gate. Open paths pass; then a request with no token gets 401 on the
    API and a redirect elsewhere; a token that verifies passes; one that does
    not gets the same split, and the cookie is deleted.
  */
  function Gate(path: string, token: Option<string>, verify: string -> bool): (r: Outcome)
    ensures r.Next? <==> IsOpen(path) || (HasToken(token) && verify(token.value))
    ensures r.Unauthorized? <==> !r.Next? && IsApi(path)
    ensures r.RedirectLogin? <==> !r.Next? && !IsApi(path)
    ensures r.Unauthorized? ==> r.error == (if HasToken(token) then TokenInvalido else NaoAutenticado)
    ensures (r.Unauthorized? || r.RedirectLogin?) ==> (r.deleteCookie <==> HasToken(token))
  {
    if path in PublicRoutes then Next
    else if exists route | route in PublicApiRoutes :: Js.StartsWith(path, route) then Next
    else if Js.StartsWith(path, "/_next") || Js.StartsWith(path, "/api/_next") || Js.Includes(path, '.') then Next
    else if token.None? || token.value == "" then
      if Js.StartsWith(path, "/api/") then Unauthorized(NaoAutenticado, false) else RedirectLogin(false)
    else if verify(token.value) then Next
    else if Js.StartsWith(path, "/api/") then Unauthorized(TokenInvalido, true)
    else RedirectLogin(true)
  }

  /** Open paths are checked first, so the cookie never matters for them. */
  lemma OpenIgnoresToken(path: string, t1: Option<string>, v1: string -> bool, t2: Option<string>, v2: string -> bool)
    requires IsOpen(path)
    ensures Gate(path, t1, v1) == Gate(path, t2, v2) == Next
  {
  }

  /** A gated API path is never redirected, and a gated page never gets a JSON 401. */
  lemma ApiNeverRedirected(path: string, token: Option<string>, verify: string -> bool)
    ensures IsApi(path) ==> !Gate(path, token, verify).RedirectLogin?
    ensures !IsApi(path) ==> !Gate(path, token, verify).Unauthorized?
  {
  }

  /** The API check is a prefix test, so '/api/healthcheck' passes without a token. */
  lemma PrefixMatchAdmitsMore(token: Option<string>, verify: string -> bool)
    ensures Gate("/api/healthcheck", token, verify) == Next
    ensures Gate("/api/dashboard/x", token, verify) == Next
  {
    assert Js.StartsWith("/api/healthcheck", "/api/health");
    assert Js.StartsWith("/api/dashboard/x", "/api/dashboard");
  }

  /** The page check is exact, so a path under '/login' is gated. */
  lemma ExactMatchForPages(verify: string -> bool)
    ensures Gate("/login/x", None, verify) == RedirectLogin(false)
  {
    var path := "/login/x";
    assert !IsPublicPage(path);
    assert !IsApi(path) && !Js.StartsWith(path, "/_next") && !Js.StartsWith(path, "/api/_next") by {
      assert path[1] == 'l';
    }
    assert !IsPublicApi(path) by {
      forall route | route in PublicApiRoutes ensures !Js.StartsWith(path, route) {
        assert path[1] == 'l' && route[1] == 'a';
      }
    }
    assert !Js.Includes(path, '.') by {
      forall i | 0 <= i < |path| ensures path[i] != '.' { }
    }
  }
}
