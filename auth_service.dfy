/**
 * The decision logic of `authService` (src/services/authService.js). The
 * identity provider's replies (`signInWithPassword`, `signOut`,
 * `getSession`) and the `users` table lookup are parameters of the
 * operations; `Login` also returns the provider calls it issued, in order.
 */
module AuthService {
  import opened Common

  datatype User = User(id: string, email: string)

  /** A provider session; only the user it carries is observed. */
  datatype Session = Session(user: Option<User>)

  /** What `signInWithPassword` settles to: the signed-in user, or an error to rethrow. */
  datatype SignInReply = SignedIn(user: User) | SignInFailed(error: Error)

  /**
   * What `from('users').select('is_admin').eq('id', …).single()` settles to:
   * an error, or the row with its `is_admin` column (`None` for SQL null).
   */
  datatype ProfileReply = ProfileError | ProfileRow(isAdmin: Option<bool>)

  /** The provider and table calls `Login` makes. */
  datatype Call =
    | SignInWithPassword(email: string, password: string)
    | SelectIsAdmin(userId: string)
    | SignOut

  const NOT_AUTHORIZED := Error("Not authorized. Admin access required.")

  /** `userData?.is_admin` is truthy and the query did not fail. */
  predicate GrantsAdmin(profile: ProfileReply) {
    profile.ProfileRow? && profile.isAdmin == Some(true)
  }

  /** `logout`: the provider's sign-out error, if any, is rethrown. */
  function Logout(signOut: Lookup<()>): (r: Lookup<()>)
    ensures r.Threw? <==> signOut.Threw?
    ensures r.Threw? ==> r.error == signOut.error
  {
    match signOut
    case Resolved(_) => Resolved(())
    case Threw(e) => Threw(e)
  }

  /**
   * `login` called on the service object: sign in, then look up `is_admin`
   * for the signed-in user; a user who is not an admin is signed out again
   * and the login fails.
   */
  method Login(email: string, password: string, signIn: SignInReply, profile: ProfileReply, signOut: Lookup<()>)
    returns (r: Lookup<User>, calls: seq<Call>)
    ensures |calls| >= 1 && calls[0] == SignInWithPassword(email, password)
    // a provider sign-in error is rethrown before any admin lookup
    ensures signIn.SignInFailed? ==> calls == [SignInWithPassword(email, password)] && r == Threw(signIn.error)
    ensures signIn.SignedIn? ==> |calls| >= 2 && calls[1] == SelectIsAdmin(signIn.user.id)
    // only an admin gets through, and gets the signed-in user back
    ensures r.Resolved? <==> signIn.SignedIn? && GrantsAdmin(profile)
    ensures r.Resolved? ==> r.value == signIn.user && |calls| == 2
    // a signed-in non-admin is signed out before the error surfaces
    ensures signIn.SignedIn? && !GrantsAdmin(profile) ==>
      calls == [SignInWithPassword(email, password), SelectIsAdmin(signIn.user.id), SignOut] &&
      r == Threw(if signOut.Threw? then signOut.error else NOT_AUTHORIZED)
  {
    calls := [SignInWithPassword(email, password)];
    if signIn.SignInFailed? {
      r := Threw(signIn.error);
      return;
    }
    calls := calls + [SelectIsAdmin(signIn.user.id)];
    if !GrantsAdmin(profile) {
      calls := calls + [SignOut];
      var out := Logout(signOut);
      if out.Threw? {
        r := Threw(out.error);
        return;
      }
      r := Threw(NOT_AUTHORIZED);
      return;
    }
    r := Resolved(signIn.user);
  }

  /**
   * What `this.logout()` throws when `login` runs with `this` undefined: a
   * `TypeError`, here with the V8 engine's wording (other engines word the
   * same error differently).
   */
  const UNBOUND_RECEIVER := Error("Cannot read properties of undefined (reading 'logout')")

  /**
   * `login` as the sign-in page calls it: the auth context hands out
   * `authService.login` itself, so the call has no receiver and `this` is
   * `undefined`. A non-admin's `this.logout()` then throws before any
   * sign-out is issued, and the session stays open.
   */
  method LoginDetached(email: string, password: string, signIn: SignInReply, profile: ProfileReply)
    returns (r: Lookup<User>, calls: seq<Call>)
    ensures |calls| >= 1 && calls[0] == SignInWithPassword(email, password)
    ensures signIn.SignInFailed? ==> calls == [SignInWithPassword(email, password)] && r == Threw(signIn.error)
    // an admin gets through exactly as with a bound call
    ensures r.Resolved? <==> signIn.SignedIn? && GrantsAdmin(profile)
    ensures r.Resolved? ==> r.value == signIn.user && calls == [SignInWithPassword(email, password), SelectIsAdmin(signIn.user.id)]
    // a non-admin is never signed out, and sees the receiver error instead of the authorisation error
    ensures signIn.SignedIn? && !GrantsAdmin(profile) ==>
      calls == [SignInWithPassword(email, password), SelectIsAdmin(signIn.user.id)] && r == Threw(UNBOUND_RECEIVER)
    ensures SignOut !in calls
  {
    calls := [SignInWithPassword(email, password)];
    if signIn.SignInFailed? {
      r := Threw(signIn.error);
      return;
    }
    calls := calls + [SelectIsAdmin(signIn.user.id)];
    if !GrantsAdmin(profile) {
      r := Threw(UNBOUND_RECEIVER);
      return;
    }
    r := Resolved(signIn.user);
  }

  /**
   * For a signed-in non-admin the two calls part ways: the bound call signs
   * the user out and reports the authorisation error, the detached call
   * does neither.
   */
  method DetachedLoginKeepsSession(email: string, password: string, user: User, profile: ProfileReply)
    returns (bound: Lookup<User>, boundCalls: seq<Call>, detached: Lookup<User>, detachedCalls: seq<Call>)
    requires !GrantsAdmin(profile)
    ensures SignOut in boundCalls && bound == Threw(NOT_AUTHORIZED)
    ensures SignOut !in detachedCalls && detached == Threw(UNBOUND_RECEIVER)
  {
    bound, boundCalls := Login(email, password, SignedIn(user), profile, Resolved(()));
    detached, detachedCalls := LoginDetached(email, password, SignedIn(user), profile);
  }

  /** `getCurrentUser`: `session?.user || null`. */
  function GetCurrentUser(session: Option<Session>): (u: Option<User>)
    ensures session.None? ==> u.None?
    ensures session.Some? ==> u == session.value.user
  {
    if session.Some? then session.value.user else None
  }

  /** What `isAdmin` returns, and whose `users` row it queried (if any). */
  datatype AdminCheck = AdminCheck(result: bool, queried: Option<string>)

  /**
   * `isAdmin`: no current user means `false` without a query; otherwise the
   * current user's row decides, and a query error means `false`.
   */
  function IsAdmin(session: Option<Session>, profile: ProfileReply): (c: AdminCheck)
    ensures GetCurrentUser(session).None? ==> c == AdminCheck(false, None)
    ensures GetCurrentUser(session).Some? ==> c.queried == Some(GetCurrentUser(session).value.id)
    ensures c.result <==> GetCurrentUser(session).Some? && GrantsAdmin(profile)
    ensures profile.ProfileError? ==> !c.result
  {
    var user := GetCurrentUser(session);
    if user.None? then AdminCheck(false, None)
    else if profile.ProfileError? then AdminCheck(false, Some(user.value.id))
    else AdminCheck(profile.isAdmin == Some(true), Some(user.value.id))
  }
}
