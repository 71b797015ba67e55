/** The route guard (src/components/ProtectedRoute.tsx): a chain of early
    returns over the session, the required role and the current location.
    Its outcome is a `Decision` value instead of markup. */
module ProtectedRoute {
  import opened Wrappers
  import opened Text
  import AuthContext

  /** The router location that a redirect carries in `state.from`. */
  datatype Location = Location(pathname: string, search: string, hash: string)

  /** The `requiredRole` prop: absent, one role, or a list of roles. */
  datatype RoleRequirement = NoRole | Single(role: string) | AnyOf(roles: seq<string>)
  {
    /** JavaScript truthiness of the prop: an empty string is falsy, while
        an array, even an empty one, is truthy. */
    predicate Truthy() {
      match this
      case NoRole => false
      case Single(r) => r != ""
      case AnyOf(_) => true
    }

    /** `Array.isArray(requiredRole) ? requiredRole : [requiredRole]`. */
    function Roles(): (rs: seq<string>)
      ensures Single? ==> rs == [role]
      ensures AnyOf? ==> rs == roles
    {
      match this
      case NoRole => []
      case Single(r) => [r]
      case AnyOf(rs) => rs
    }

    /** The roles named in the access-denied text, joined with " or ". */
    function Label(): string {
      match this
      case NoRole => ""
      case Single(r) => r
      case AnyOf(rs) => Join(rs, " or ")
    }
  }

  /** What `useAuth()` hands the guard. */
  datatype AuthView = AuthView(user: AuthContext.UserValue, isAuthenticated: bool, isLoading: bool)

  /** The view the provider publishes for a session. */
  function ViewOf(s: AuthContext.Session): (v: AuthView)
    ensures v.isAuthenticated <==> s.user.Record? || (s.user.NonRecord? && s.user.truthy)
    ensures v.user == s.user && v.isLoading == s.isLoading
  {
    AuthView(s.user, s.IsAuthenticated(), s.isLoading)
  }

  datatype Decision =
    | Spinner
    | Redirect(to: string, from: Location, replace: bool)
    | AccessDenied(restrictedTo: string)
    | RenderFunction(user: AuthContext.UserValue)
    | Children

  /** `user?.role && roles.includes(user.role)`. */
  predicate HasRequiredRole(user: AuthContext.UserValue, req: RoleRequirement) {
    user.Role().Some? && user.Role().value != "" && user.Role().value in req.Roles()
  }

  /** The guard. `redirectPath` is `None` when the prop is not passed, in
      which case its default `/login` applies. */
  function Guard(auth: AuthView, req: RoleRequirement, redirectPath: Option<string>,
                 hasRenderFunction: bool, location: Location): (d: Decision)
    ensures auth.isLoading ==> d == Spinner
    ensures !auth.isLoading && !auth.isAuthenticated ==>
              d == Redirect(redirectPath.GetOr("/login"), location, true)
    ensures !auth.isLoading && auth.isAuthenticated && req.Truthy() && !HasRequiredRole(auth.user, req) ==>
              d == AccessDenied(req.Label())
    ensures !auth.isLoading && auth.isAuthenticated && (!req.Truthy() || HasRequiredRole(auth.user, req)) ==>
              d == (if hasRenderFunction then RenderFunction(auth.user) else Children)
  {
    if auth.isLoading then Spinner
    else if !auth.isAuthenticated then Redirect(redirectPath.GetOr("/login"), location, true)
    else if req.Truthy() && !HasRequiredRole(auth.user, req) then AccessDenied(req.Label())
    else if hasRenderFunction then RenderFunction(auth.user)
    else Children
  }

  /** Content is let through exactly when the session is settled, signed in,
      and either no role is asked for or the user holds one of the roles. */
  lemma {:induction false} GrantedIff(auth: AuthView, req: RoleRequirement, redirectPath: Option<string>,
                                      f: bool, location: Location)
    ensures (Guard(auth, req, redirectPath, f, location).RenderFunction? ||
             Guard(auth, req, redirectPath, f, location).Children?) <==>
            (!auth.isLoading && auth.isAuthenticated && (!req.Truthy() || HasRequiredRole(auth.user, req)))
    ensures Guard(auth, req, redirectPath, f, location).AccessDenied? ==> auth.isAuthenticated
    ensures Guard(auth, req, redirectPath, f, location).Redirect? <==> !auth.isLoading && !auth.isAuthenticated
  {
  }

  /** A single role behaves exactly like the one-element list holding it. */
  lemma SingleAsList(auth: AuthView, role: string, redirectPath: Option<string>, f: bool, location: Location)
    requires role != ""
    ensures Guard(auth, Single(role), redirectPath, f, location) ==
            Guard(auth, AnyOf([role]), redirectPath, f, location)
  {
    assert Join([role], " or ") == role;
  }

  /** ... except for the empty string, which is falsy and skips the check
      that `[""]` performs (and no user passes, a role being non-empty). */
  lemma EmptySingleDiffersFromList(u: AuthContext.User, location: Location)
    ensures Guard(AuthView(AuthContext.Record(u), true, false), Single(""), None, false, location) == Children
    ensures Guard(AuthView(AuthContext.Record(u), true, false), AnyOf([""]), None, false, location) == AccessDenied("")
  {
    assert Join([""], " or ") == "";
  }

  /** An empty role list turns away every signed-in user. */
  lemma EmptyListDeniesAll(auth: AuthView, redirectPath: Option<string>, f: bool, location: Location)
    requires !auth.isLoading && auth.isAuthenticated
    ensures Guard(auth, AnyOf([]), redirectPath, f, location) == AccessDenied("")
  {
  }

  /** An absent or empty `requiredRole` skips the role check. */
  lemma NoRoleSkipsCheck(auth: AuthView, redirectPath: Option<string>, f: bool, location: Location)
    ensures Guard(auth, NoRole, redirectPath, f, location) == Guard(auth, Single(""), redirectPath, f, location)
    ensures !auth.isLoading && auth.isAuthenticated ==>
              !Guard(auth, NoRole, redirectPath, f, location).AccessDenied?
  {
  }

  /** A stored entry that parsed to a truthy non-object (`"x"`, `[]`, `1`)
      passes every route that asks for no role and is turned away from every
      route that asks for one. */
  lemma NonRecordSessionGuarded(storage: map<string, string>, parse: string -> AuthContext.Parsed,
                                req: RoleRequirement, f: bool, location: Location)
    requires AuthContext.Saved(storage).Some?
    requires parse(AuthContext.Saved(storage).value) == AuthContext.Value(AuthContext.NonRecord(true))
    ensures !req.Truthy() ==>
              Guard(ViewOf(AuthContext.Initial(storage).CheckAuth(parse)), req, None, f, location) ==
              (if f then RenderFunction(AuthContext.NonRecord(true)) else Children)
    ensures req.Truthy() ==>
              Guard(ViewOf(AuthContext.Initial(storage).CheckAuth(parse)), req, None, f, location) ==
              AccessDenied(req.Label())
  {
    AuthContext.NonRecordEntryTaken(storage, parse, true);
  }

  /** A user signed in through `login` holds the role `admin`, so an
      admin-only route lets them through once the provider has settled. */
  lemma LoggedInAdminGranted(s: AuthContext.Session, email: string, stringify: AuthContext.User -> string,
                             writable: bool, location: Location)
    ensures Guard(ViewOf(s.Login(email, stringify, writable).0), Single("admin"), None, false, location) == Children
    ensures Guard(ViewOf(s.Login(email, stringify, writable).0), AnyOf(["buyer", "admin"]), None, false, location) == Children
  {
    var u := AuthContext.MockUser(email);
    assert u.role.value in ["buyer", "admin"];
  }

  /** While `login` is pending the guard shows the spinner, whatever the
      earlier state was. */
  lemma PendingLoginShowsSpinner(s: AuthContext.Session, req: RoleRequirement, redirectPath: Option<string>,
                                 f: bool, location: Location)
    ensures Guard(ViewOf(s.LoginPending()), req, redirectPath, f, location) == Spinner
  {
  }

  /** After logout a settled provider sends every visitor to the login page. */
  lemma LogoutRedirects(s: AuthContext.Session, req: RoleRequirement, f: bool, location: Location)
    requires !s.isLoading
    ensures Guard(ViewOf(s.Logout()), req, None, f, location) == Redirect("/login", location, true)
  {
  }
}
