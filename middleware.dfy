/**
 * The Next.js edge middleware (`frontend/middleware.ts`): a decision on
 * the request's pathname and its `auth_token` cookie.
 */
module Middleware {
  import opened Wrappers

  const ProtectedRoutes: seq<string> := ["/account", "/checkout", "/orders", "/wishlist"]
  const AuthRoutes: seq<string> := ["/auth/sign-in", "/auth/sign-up"]
  const SignIn := "/auth/sign-in"
  const Home := "/"

  datatype Outcome = Next | Redirect(location: string)

  /** `routes.some((route) => pathname.startsWith(route))`. */
  predicate StartsWithAny(pathname: string, routes: seq<string>)
  {
    exists i :: 0 <= i < |routes| && StartsWith(pathname, routes[i])
  }

  predicate IsProtected(pathname: string)
  {
    StartsWithAny(pathname, ProtectedRoutes)
  }

  predicate IsAuthRoute(pathname: string)
  {
    StartsWithAny(pathname, AuthRoutes)
  }

  /** `middleware(request)`; `token` is the cookie's value, absent when there is no cookie. */
  function Decide(pathname: string, token: Option<string>): Outcome
  {
    if IsProtected(pathname) && !Truthy(token) then Redirect(SignIn)
    else if IsAuthRoute(pathname) && Truthy(token) then Redirect(Home)
    else Next
  }

  /** The three outcomes, each with both directions. */
  lemma DecideCases(pathname: string, token: Option<string>)
    ensures Decide(pathname, token) == Redirect(SignIn) <==> IsProtected(pathname) && !Truthy(token)
    ensures Decide(pathname, token) == Redirect(Home) <==> IsAuthRoute(pathname) && Truthy(token)
    ensures Decide(pathname, token) == Next <==>
              !(IsProtected(pathname) && !Truthy(token)) && !(IsAuthRoute(pathname) && Truthy(token))
  {
    assert SignIn != Home by { assert |SignIn| != |Home|; }
  }

  /** Only the pathname and whether the token is non-empty matter: an empty cookie counts as none. */
  lemma DependsOnlyOnTruthiness(pathname: string, t1: Option<string>, t2: Option<string>)
    requires Truthy(t1) == Truthy(t2)
    ensures Decide(pathname, t1) == Decide(pathname, t2)
  {
  }

  lemma EmptyTokenIsAbsent(pathname: string)
    ensures Decide(pathname, Some("")) == Decide(pathname, None)
  {
  }

  /** The route lists are disjoint in effect: no pathname starts with a protected and an auth route. */
  lemma NoPathInBothLists(pathname: string)
    ensures !(IsProtected(pathname) && IsAuthRoute(pathname))
  {
    if IsAuthRoute(pathname) {
      var j :| 0 <= j < |AuthRoutes| && StartsWith(pathname, AuthRoutes[j]);
      assert pathname[..|AuthRoutes[j]|] == AuthRoutes[j];
      assert pathname[2] == AuthRoutes[j][2] == 'u';
    }
  }

  /** Matching is by prefix, so a path that merely begins like a protected route is protected too. */
  lemma PrefixMatchReachesFurther()
    ensures IsProtected("/accounting")
    ensures Decide("/accounting", None) == Redirect(SignIn)
    ensures Decide("/account/orders", Some("t")) == Next
  {
    assert StartsWith("/accounting", ProtectedRoutes[0]);
    assert StartsWith("/account/orders", ProtectedRoutes[0]);
    NoPathInBothLists("/account/orders");
  }

  /** Pages outside both lists always pass. */
  lemma OtherPathsPass(pathname: string, token: Option<string>)
    requires !IsProtected(pathname) && !IsAuthRoute(pathname)
    ensures Decide(pathname, token) == Next
  {
  }
}
