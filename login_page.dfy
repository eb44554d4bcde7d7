/**
 * The decisions of the sign-in page (src/pages/Login.jsx): where to return
 * after signing in, when to redirect an already signed-in admin, what
 * `onSubmit` does with the login outcome, and the loading gate.
 */
module LoginPage {
  import opened Common
  import opened ProtectedRoute
  import AuthService

  const HOME := "/"
  const DEFAULT_FAILURE := "Failed to sign in"

  /** A call to `navigate(to, { replace })`. */
  datatype Navigation = Navigation(to: string, replace: bool)

  /** `location.state?.from?.pathname || '/'`. */
  function ReturnTarget(location: Location): (to: string)
    ensures to != ""
    ensures location.state.Some? && location.state.value.from.Some? && location.state.value.from.value.pathname != "" ==>
      to == location.state.value.from.value.pathname
    ensures location.state.None? || location.state.value.from.None? ==> to == HOME
    ensures location.state.Some? && location.state.value.from.Some? && location.state.value.from.value.pathname == "" ==>
      to == HOME
  {
    match location.state
    case Some(RouteState(Some(from))) => if from.pathname != "" then from.pathname else HOME
    case _ => HOME
  }

  /**
   * A redirect made by the guard brings the user back to the page they
   * attempted: the sign-in page reached through it returns to that path.
   */
  lemma RedirectRoundTrip(attempted: Location, search: string)
    requires attempted.pathname != ""
    ensures var e := Guard(false, attempted);
      e.Navigate? && ReturnTarget(Location(e.to, search, Some(e.state))) == attempted.pathname
  {
  }

  /** The auto-redirect effect: only a signed-in admin is sent on, replacing the history entry. */
  function AutoRedirect(user: Option<AuthService.User>, isAdmin: bool, from: string): (n: Option<Navigation>)
    ensures n.Some? <==> user.Some? && isAdmin
    ensures n.Some? ==> n.value == Navigation(from, true)
  {
    if user.Some? && isAdmin then Some(Navigation(from, true)) else None
  }

  /** `error.message || 'Failed to sign in'`: never empty. */
  function FailureMessage(e: Error): (m: string)
    ensures m != ""
    ensures e.message != "" ==> m == e.message
  {
    if e.message != "" then e.message else DEFAULT_FAILURE
  }

  /** What the page renders. */
  datatype Screen = Spinner | SignInForm(alert: Option<string>)

  /** While auth is loading a spinner replaces the form; the alert shows a non-empty `formError`. */
  function Render(authLoading: bool, formError: string): (v: Screen)
    ensures v.Spinner? <==> authLoading
    ensures v.SignInForm? ==> (v.alert.Some? <==> formError != "")
    ensures v.SignInForm? && v.alert.Some? ==> v.alert.value == formError
  {
    if authLoading then Spinner
    else SignInForm(if formError != "" then Some(formError) else None)
  }

  /** The page's `formError` state and the navigations it has asked for. */
  class SignInPage {
    var formError: string
    var navigations: seq<Navigation>

    constructor ()
      ensures formError == "" && navigations == []
    {
      formError := "";
      navigations := [];
    }

    /** `onSubmit` up to `await login(…)`: the previous error is cleared. */
    method BeginSubmit()
      modifies this
      ensures formError == "" && navigations == old(navigations)
    {
      formError := "";
    }

    /** `onSubmit` after `await login(…)`. */
    method FinishSubmit(outcome: Lookup<AuthService.User>, from: string)
      modifies this
      ensures outcome.Resolved? ==> navigations == old(navigations) + [Navigation(from, true)] && formError == old(formError)
      ensures outcome.Threw? ==> formError == FailureMessage(outcome.error) && navigations == old(navigations)
    {
      match outcome {
        case Resolved(_) =>
          navigations := navigations + [Navigation(from, true)];
        case Threw(e) =>
          formError := FailureMessage(e);
      }
    }

    /**
     * A whole submission against the provider replies, with `login` called
     * detached as the page does: a signed-in user who is not an admin is not
     * signed out, is not navigated anywhere, and sees the receiver error.
     */
    method Submit(email: string, password: string, signIn: AuthService.SignInReply, profile: AuthService.ProfileReply,
                  from: string) returns (calls: seq<AuthService.Call>)
      modifies this
      ensures signIn.SignedIn? && AuthService.GrantsAdmin(profile) ==>
        navigations == old(navigations) + [Navigation(from, true)] && formError == ""
      // a non-admin is neither navigated nor signed out
      ensures signIn.SignedIn? && !AuthService.GrantsAdmin(profile) ==>
        navigations == old(navigations) && formError == AuthService.UNBOUND_RECEIVER.message
      ensures AuthService.SignOut !in calls
      ensures signIn.SignInFailed? ==> navigations == old(navigations) && formError == FailureMessage(signIn.error)
    {
      BeginSubmit();
      var outcome;
      outcome, calls := AuthService.LoginDetached(email, password, signIn, profile);
      FinishSubmit(outcome, from);
    }
  }
}
