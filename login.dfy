/** The sign-in page (src/pages/Login.tsx): the return address taken from
    the router state the guard left, the form schema, the redirect of a
    visitor who is already signed in, and the submit handler. zod's e-mail
    check is the parameter `isEmail`. */
module Login {
  import opened Wrappers
  import opened Ui
  import AuthContext
  import ProtectedRoute

  /** `location.state` as the page reads it: absent, or an object whose
      `from` may be missing. */
  datatype RouteState = NoState | FromState(from: Option<ProtectedRoute.Location>)

  /** `location.state?.from?.pathname || '/'`. */
  function From(state: RouteState): (r: string)
    ensures r != ""
    ensures state.FromState? && state.from.Some? && state.from.value.pathname != "" ==>
              r == state.from.value.pathname
    ensures !(state.FromState? && state.from.Some? && state.from.value.pathname != "") ==> r == "/"
  {
    if state.FromState? && state.from.Some? && state.from.value.pathname != "" then state.from.value.pathname
    else "/"
  }

  /** The route state a guard redirect leaves behind. */
  function StateAfterRedirect(d: ProtectedRoute.Decision): RouteState
    requires d.Redirect?
  {
    FromState(Some(d.from))
  }

  /** The round trip: a visitor turned away by the guard is sent back, after
      signing in, to the path they asked for (the query and fragment are
      dropped, only the pathname is kept). */
  lemma ReturnsToRequestedPath(auth: ProtectedRoute.AuthView, req: ProtectedRoute.RoleRequirement,
                               redirectPath: Option<string>, f: bool, location: ProtectedRoute.Location)
    requires location.pathname != ""
    requires !auth.isLoading && !auth.isAuthenticated
    ensures ProtectedRoute.Guard(auth, req, redirectPath, f, location).Redirect?
    ensures From(StateAfterRedirect(ProtectedRoute.Guard(auth, req, redirectPath, f, location))) == location.pathname
  {
  }

  datatype Values = Values(email: string, password: string)

  const DefaultValues := Values("", "")

  function Issues(v: Values, isEmail: string -> bool): (r: seq<Issue>)
  {
    Check(|v.email| >= 1, "email", "Email is required") +
    Check(isEmail(v.email), "email", "Invalid email address") +
    Check(|v.password| >= 1, "password", "Password is required")
  }

  /** The schema accepts exactly a non-empty, well-formed e-mail and a
      non-empty password. */
  lemma {:induction false} IssuesEmptyIff(v: Values, isEmail: string -> bool)
    ensures Issues(v, isEmail) == [] <==> v.email != "" && isEmail(v.email) && v.password != ""
  {
    var a := Check(|v.email| >= 1, "email", "Email is required");
    var b := Check(isEmail(v.email), "email", "Invalid email address");
    var c := Check(|v.password| >= 1, "password", "Password is required");
    assert Issues(v, isEmail) == a + b + c;
    assert |a + b + c| == |a| + |b| + |c|;
  }

  /** An empty e-mail shows "Email is required" (its first issue), whatever
      the e-mail check says; the default form never submits. */
  lemma EmptyEmailMessage(password: string, isEmail: string -> bool)
    ensures FirstError(Issues(Values("", password), isEmail), "email") == Some("Email is required")
    ensures Issues(DefaultValues, isEmail) != []
  {
  }

  const FailureFallback := "Invalid email or password. Please try again."

  /** `error.message || fallback`. */
  function FailureText(message: string): (r: string)
    ensures r != ""
    ensures message != "" ==> r == message
  {
    if message != "" then message else FailureFallback
  }

  const SuccessToast := Toast("Login successful", "Welcome back to Benz Packaging Solutions!", false)

  /** The only error `login` raises carries its own text, so the fallback is
      never shown for it. */
  lemma LoginFailureText(s: AuthContext.Session, email: string, stringify: AuthContext.User -> string)
    ensures s.Login(email, stringify, false).1.Err?
    ensures FailureText(s.Login(email, stringify, false).1.error) == "Invalid credentials"
  {
  }

  class LoginPage {
    var isLoading: bool
    var shownIssues: seq<Issue>
    var navigations: seq<Navigation>
    var toasts: seq<Toast>

    constructor ()
      ensures !isLoading && shownIssues == [] && navigations == [] && toasts == []
    {
      isLoading := false;
      shownIssues := [];
      navigations := [];
      toasts := [];
    }

    /** The effect that sends a signed-in visitor on to `from`. */
    method RedirectIfAuthenticated(isAuthenticated: bool, state: RouteState)
      modifies this
      ensures isAuthenticated ==> navigations == old(navigations) + [Navigation(From(state), true)]
      ensures !isAuthenticated ==> navigations == old(navigations)
      ensures isLoading == old(isLoading) && shownIssues == old(shownIssues) && toasts == old(toasts)
    {
      if isAuthenticated {
        navigations := navigations + [Navigation(From(state), true)];
      }
    }

    /** The form's submit: invalid values only show their issues; valid ones
        run `onSubmit`, which signs in through the provider, then toasts and
        navigates to `from` on success, or toasts the error on failure; the
        loading flag is false afterwards on both paths. */
    method Submit(v: Values, state: RouteState, isEmail: string -> bool,
                  auth: AuthContext.AuthProvider, stringify: AuthContext.User -> string, storageWritable: bool)
      modifies this, auth
      ensures Issues(v, isEmail) != [] ==>
                shownIssues == Issues(v, isEmail) && isLoading == old(isLoading) &&
                navigations == old(navigations) &&
                toasts == old(toasts) && auth.State() == old(auth.State())
      ensures Issues(v, isEmail) == [] ==>
                shownIssues == [] && !isLoading &&
                auth.State() == old(auth.State()).Login(v.email, stringify, storageWritable).0
      ensures Issues(v, isEmail) == [] && storageWritable ==>
                toasts == old(toasts) + [SuccessToast] &&
                navigations == old(navigations) + [Navigation(From(state), true)]
      ensures Issues(v, isEmail) == [] && !storageWritable ==>
                toasts == old(toasts) + [Toast("Login failed", FailureText(AuthContext.LoginError), true)] &&
                navigations == old(navigations)
    {
      var issues := Issues(v, isEmail);
      if issues != [] {
        shownIssues := issues;
        return;
      }
      shownIssues := [];
      isLoading := true;
      var outcome := auth.Login(v.email, v.password, stringify, storageWritable);
      match outcome {
        case Ok(_) =>
          toasts := toasts + [SuccessToast];
          navigations := navigations + [Navigation(From(state), true)];
        case Err(message) =>
          toasts := toasts + [Toast("Login failed", FailureText(message), true)];
      }
      isLoading := false;
    }
  }
}
