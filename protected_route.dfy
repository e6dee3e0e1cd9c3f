/**
 * `ProtectedRoute` (`frontend/components/auth/ProtectedRoute.tsx`): what
 * the component renders and where its effect redirects, given the store's
 * flags, the signed-in user and the role the page requires.
 */
module ProtectedRoute {
  import opened Wrappers
  import Store

  const SignIn := "/auth/sign-in"
  const Home := "/"

  /** The store state the component reads. */
  datatype AuthFlags = AuthFlags(isLoading: bool, isAuthChecked: bool, isLoggedIn: bool, user: Option<Store.User>)

  datatype View = Spinner | Nothing | Children

  /** `user?.role`: undefined without a user. */
  function UserRole(user: Option<Store.User>): Option<Store.Role>
  {
    if user.Some? then Some(user.value.role) else None
  }

  /** `requiredRole && user?.role !== requiredRole`. */
  predicate RoleRefused(user: Option<Store.User>, requiredRole: Option<Store.Role>)
  {
    requiredRole.Some? && UserRole(user) != requiredRole
  }

  predicate Settled(f: AuthFlags)
  {
    !f.isLoading && f.isAuthChecked
  }

  /** The page the effect sends the router to, if any. */
  function Redirect(f: AuthFlags, requiredRole: Option<Store.Role>): Option<string>
  {
    if !Settled(f) then None
    else if !f.isLoggedIn then Some(SignIn)
    else if RoleRefused(f.user, requiredRole) then Some(Home)
    else None
  }

  /** What the component returns. */
  function Render(f: AuthFlags, requiredRole: Option<Store.Role>): View
  {
    if f.isLoading || !f.isAuthChecked then Spinner
    else if !f.isLoggedIn then Nothing
    else if RoleRefused(f.user, requiredRole) then Nothing
    else Children
  }

  /** While loading or unchecked: the spinner only, and no redirect. */
  lemma UnsettledWaits(f: AuthFlags, requiredRole: Option<Store.Role>)
    ensures Render(f, requiredRole) == Spinner <==> !Settled(f)
    ensures !Settled(f) ==> Redirect(f, requiredRole) == None
  {
  }

  /** Once settled and signed out: nothing rendered, redirect to sign-in. */
  lemma SignedOutGoesToSignIn(f: AuthFlags, requiredRole: Option<Store.Role>)
    requires Settled(f) && !f.isLoggedIn
    ensures Render(f, requiredRole) == Nothing && Redirect(f, requiredRole) == Some(SignIn)
  {
  }

  /** Signed in with a role other than the required one (or no user at all): nothing rendered, redirect home. */
  lemma WrongRoleGoesHome(f: AuthFlags, required: Store.Role)
    requires Settled(f) && f.isLoggedIn && (f.user.None? || f.user.value.role != required)
    ensures Render(f, Some(required)) == Nothing && Redirect(f, Some(required)) == Some(Home)
  {
  }

  /** Children are rendered exactly when settled, signed in, and the role is not required or matches. */
  lemma ChildrenExactly(f: AuthFlags, requiredRole: Option<Store.Role>)
    ensures Render(f, requiredRole) == Children <==>
              Settled(f) && f.isLoggedIn &&
              (requiredRole.None? || (f.user.Some? && f.user.value.role == requiredRole.value))
  {
  }

  /** The render and the effect agree: the component renders nothing exactly when it redirects. */
  lemma NothingIffRedirect(f: AuthFlags, requiredRole: Option<Store.Role>)
    ensures Render(f, requiredRole) == Nothing <==> Redirect(f, requiredRole).Some?
    ensures Render(f, requiredRole) == Children ==> Redirect(f, requiredRole) == None
  {
  }
}
