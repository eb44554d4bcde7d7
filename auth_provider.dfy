/**
 * The session state kept by `AuthProvider` (src/context/AuthProvider.jsx):
 * `user`, `loading` and `isAdmin`, the effect's `mounted` flag and its
 * provider subscription. Every `await` is a separate step, so a step is the
 * code that runs from one suspension point to the next:
 *
 *   - `SessionRead`: `initializeAuth` resumes after `getCurrentUser()`;
 *   - `InitAdminChecked`: `initializeAuth` resumes after `isAdmin()`;
 *   - `AuthStateChange`: the change handler runs up to its `isAdmin()` await;
 *   - `HandlerAdminChecked`: one suspended handler resumes after `isAdmin()`;
 *   - `Unmount`: the effect's cleanup.
 *
 * Several handler invocations may be suspended at once; they all resume with
 * the same code, so only their number (`pendingChecks`) is kept. `Next` is
 * the transition function; class `Provider` holds the same fields and its
 * methods are proved to follow `Next`.
 */
module AuthProvider {
  import opened Common
  import opened AuthService

  /** Where `initializeAuth` is suspended, or that it has finished. */
  datatype InitPhase = AwaitingSession | AwaitingAdmin | InitDone

  /** The provider's change events; only `TOKEN_REFRESHED` is told apart by the handler. */
  datatype AuthEvent =
    | InitialSessionEvent
    | SignedInEvent
    | SignedOutEvent
    | TokenRefreshedEvent
    | UserUpdatedEvent
    | PasswordRecoveryEvent

  datatype AuthState = AuthState(
    user: Option<User>,
    loading: bool,
    isAdmin: bool,
    mounted: bool,
    subscribed: bool,
    init: InitPhase,
    pendingChecks: nat)

  /** The three fields the provider exposes to the rest of the application. */
  datatype View = View(user: Option<User>, loading: bool, isAdmin: bool)

  function ViewOf(s: AuthState): View {
    View(s.user, s.loading, s.isAdmin)
  }

  datatype Step =
    | SessionRead(session: Lookup<Option<User>>)
    | InitAdminChecked(admin: Lookup<bool>)
    | AuthStateChange(event: AuthEvent, changed: Option<Session>)
    | HandlerAdminChecked(admin: Lookup<bool>)
    | Unmount

  /** The state right after the effect has run: initialisation started, handler subscribed. */
  function Initial(): AuthState {
    AuthState(None, true, false, true, true, AwaitingSession, 0)
  }

  /** Some suspended code is waiting for this step's result (or, for the others, it can occur). */
  predicate Enabled(s: AuthState, step: Step) {
    match step
    case SessionRead(_) => s.init == AwaitingSession
    case InitAdminChecked(_) => s.init == AwaitingAdmin
    case AuthStateChange(_, _) => s.subscribed
    case HandlerAdminChecked(_) => s.pendingChecks > 0
    case Unmount => s.mounted
  }

  /** One step; a step nothing is waiting for changes nothing. */
  function Next(s: AuthState, step: Step): (r: AuthState)
    ensures !Enabled(s, step) ==> r == s
    // token refreshes are ignored
    ensures step.AuthStateChange? && step.event == TokenRefreshedEvent ==> r == s
    // once unmounted, nothing the provider exposes changes
    ensures !s.mounted ==> ViewOf(r) == ViewOf(s) && !r.mounted
    // the admin flag is only raised by an admin check that answered true
    ensures r.isAdmin && !s.isAdmin ==> ConfirmsAdmin(step)
    // a step that ends initialisation while mounted turns loading off
    ensures s.mounted && s.init != InitDone && r.init == InitDone ==> !r.loading
  {
    if !Enabled(s, step) then s
    else match step
      case SessionRead(lookup) =>
        if lookup.Resolved? && s.mounted && lookup.value.Some? then
          s.(user := lookup.value, init := AwaitingAdmin)
        else
          var s1 := if lookup.Resolved? && s.mounted then s.(user := lookup.value) else s;
          s1.(init := InitDone, loading := if s.mounted then false else s.loading)
      case InitAdminChecked(lookup) =>
        var s1 := if lookup.Resolved? && s.mounted then s.(isAdmin := lookup.value) else s;
        s1.(init := InitDone, loading := if s.mounted then false else s.loading)
      case AuthStateChange(event, session) =>
        if !s.mounted || event == TokenRefreshedEvent then s
        else
          var u := GetCurrentUser(session);
          if u.Some? then s.(user := u, loading := true, pendingChecks := s.pendingChecks + 1)
          else s.(user := None, isAdmin := false, loading := false)
      case HandlerAdminChecked(lookup) =>
        var admin := lookup.Resolved? && lookup.value;
        if s.mounted then s.(isAdmin := admin, loading := false, pendingChecks := s.pendingChecks - 1)
        else s.(pendingChecks := s.pendingChecks - 1)
      case Unmount =>
        s.(mounted := false, subscribed := false)
  }

  /** The state after a sequence of steps. */
  function Run(s: AuthState, steps: seq<Step>): AuthState
    decreases |steps|
  {
    if steps == [] then s else Run(Next(s, steps[0]), steps[1..])
  }

  /** A three-step run, unfolded. */
  lemma RunThree(s: AuthState, x: Step, y: Step, z: Step)
    ensures Run(s, [x, y, z]) == Next(Next(Next(s, x), y), z)
  {
    var s1 := Next(s, x);
    var s2 := Next(s1, y);
    assert [z][1..] == [];
    assert Run(s2, [z]) == Next(s2, z);
    assert [y, z][1..] == [z];
    assert Run(s1, [y, z]) == Run(s2, [z]);
    assert [x, y, z][1..] == [y, z];
    assert Run(s, [x, y, z]) == Run(s1, [y, z]);
  }

  /** A step that hands the state a successful admin check. */
  predicate ConfirmsAdmin(step: Step) {
    step == InitAdminChecked(Resolved(true)) || step == HandlerAdminChecked(Resolved(true))
  }

  /**
   * The state invariant: the cleanup both clears `mounted` and releases the
   * subscription, and once nothing is in flight the loading flag is off.
   */
  predicate Inv(s: AuthState) {
    && (s.mounted <==> s.subscribed)
    && (s.mounted && s.init == InitDone && s.pendingChecks == 0 ==> !s.loading)
  }

  lemma InitialState()
    ensures ViewOf(Initial()) == View(None, true, false)
    ensures Inv(Initial())
  {
  }

  lemma InvPreserved(s: AuthState, step: Step)
    requires Inv(s)
    ensures Inv(Next(s, step))
  {
  }

  lemma {:induction false} InvAlwaysHolds(s: AuthState, steps: seq<Step>)
    requires Inv(s)
    ensures Inv(Run(s, steps))
    decreases |steps|
  {
    if steps != [] {
      InvPreserved(s, steps[0]);
      InvAlwaysHolds(Next(s, steps[0]), steps[1..]);
    }
  }

  /** Initialisation always ends with `loading` off while mounted, whether a lookup threw or not. */
  lemma InitEndsNotLoading(s: AuthState, step: Step)
    requires s.mounted && (step.SessionRead? || step.InitAdminChecked?)
    requires Enabled(s, step) && Next(s, step).init == InitDone
    ensures !Next(s, step).loading
  {
  }

  /** A failed session read leaves `user` and `isAdmin` alone; a failed admin check leaves `isAdmin` alone. */
  lemma InitFailureKeepsState(s: AuthState, e: Error)
    ensures Next(s, SessionRead(Threw(e))).user == s.user
    ensures Next(s, SessionRead(Threw(e))).isAdmin == s.isAdmin
    ensures Next(s, InitAdminChecked(Threw(e))).isAdmin == s.isAdmin
  {
  }

  /** Initialisation that finds no user never touches `isAdmin`: from the start it stays false. */
  lemma NoSessionKeepsAdminOff(s: AuthState)
    requires s.init == AwaitingSession && s.mounted
    ensures Next(s, SessionRead(Resolved(None))) == s.(user := None, init := InitDone, loading := false)
    ensures ViewOf(Run(Initial(), [SessionRead(Resolved(None))])) == View(None, false, false)
  {
  }

  /** A persisted admin session: the user is set, then the check's answer, then loading off. */
  lemma PersistedAdminSession(u: User)
    ensures ViewOf(Run(Initial(), [SessionRead(Resolved(Some(u)))])) == View(Some(u), true, false)
    ensures ViewOf(Run(Initial(), [SessionRead(Resolved(Some(u))), InitAdminChecked(Resolved(true))])) == View(Some(u), false, true)
  {
    var steps := [SessionRead(Resolved(Some(u))), InitAdminChecked(Resolved(true))];
    var s1 := Next(Initial(), steps[0]);
    assert steps[1..] == [InitAdminChecked(Resolved(true))];
    assert Run(s1, steps[1..]) == Next(s1, steps[1]);
  }

  /** `TOKEN_REFRESHED` is ignored whatever session it carries. */
  lemma TokenRefreshIgnored(s: AuthState, session: Option<Session>)
    ensures Next(s, AuthStateChange(TokenRefreshedEvent, session)) == s
  {
  }

  /** Any run of `TOKEN_REFRESHED` events leaves the whole state as it was. */
  lemma {:induction false} TokenRefreshesIgnored(s: AuthState, steps: seq<Step>)
    requires forall i :: 0 <= i < |steps| ==> steps[i].AuthStateChange? && steps[i].event == TokenRefreshedEvent
    ensures Run(s, steps) == s
    decreases |steps|
  {
    if steps != [] {
      TokenRefreshIgnored(s, steps[0].changed);
      TokenRefreshesIgnored(s, steps[1..]);
    }
  }

  /** An event whose session has no user clears the user, revokes admin and stops loading. */
  lemma SignedOutClears(s: AuthState, event: AuthEvent, session: Option<Session>)
    requires s.mounted && s.subscribed && event != TokenRefreshedEvent
    requires GetCurrentUser(session).None?
    ensures ViewOf(Next(s, AuthStateChange(event, session))) == View(None, false, false)
  {
  }

  /**
   * An event with a user sets the user and turns loading on; when its check
   * resumes, `isAdmin` is the check's answer (false if it threw) and loading
   * goes off.
   */
  lemma SignedInChecks(s: AuthState, event: AuthEvent, u: User, admin: Lookup<bool>)
    requires s.mounted && s.subscribed && event != TokenRefreshedEvent
    ensures var s1 := Next(s, AuthStateChange(event, Some(Session(Some(u)))));
      && s1.user == Some(u) && s1.loading && s1.isAdmin == s.isAdmin
      && s1.pendingChecks == s.pendingChecks + 1
      && ViewOf(Next(s1, HandlerAdminChecked(admin))) == View(Some(u), false, admin == Resolved(true))
  {
  }

  /** After the cleanup nothing the provider exposes changes again, and it stays unsubscribed. */
  lemma {:induction false} UnmountedIsFrozen(s: AuthState, steps: seq<Step>)
    requires !s.mounted
    ensures ViewOf(Run(s, steps)) == ViewOf(s)
    ensures !Run(s, steps).mounted
    ensures !s.subscribed ==> !Run(s, steps).subscribed
    decreases |steps|
  {
    if steps != [] {
      var s1 := Next(s, steps[0]);
      assert ViewOf(s1) == ViewOf(s) && !s1.mounted && (!s.subscribed ==> !s1.subscribed);
      UnmountedIsFrozen(s1, steps[1..]);
    }
  }

  /** The cleanup itself releases the subscription. */
  lemma UnmountReleases(s: AuthState)
    requires s.mounted
    ensures !Next(s, Unmount).mounted && !Next(s, Unmount).subscribed
    ensures ViewOf(Next(s, Unmount)) == ViewOf(s)
  {
  }

  /** Fail-closed: `isAdmin` only becomes true through an admin check that answered true. */
  lemma {:induction false} AdminOnlyFromCheck(s: AuthState, steps: seq<Step>)
    requires !s.isAdmin
    ensures Run(s, steps).isAdmin ==> exists i :: 0 <= i < |steps| && ConfirmsAdmin(steps[i])
    decreases |steps|
  {
    if steps != [] {
      var s1 := Next(s, steps[0]);
      if s1.isAdmin {
        assert ConfirmsAdmin(steps[0]);
      } else {
        AdminOnlyFromCheck(s1, steps[1..]);
        if Run(s, steps).isAdmin {
          var i :| 0 <= i < |steps[1..]| && ConfirmsAdmin(steps[1..][i]);
          assert ConfirmsAdmin(steps[i + 1]);
        }
      }
    }
  }

  /**
   * No result is discarded as stale: an initial admin check that resumes
   * after a sign-out event still sets `isAdmin`, which is then true with no
   * user signed in.
   */
  lemma StaleInitCheckAfterSignOut(u: User)
    ensures ViewOf(Run(Initial(), [SessionRead(Resolved(Some(u))), AuthStateChange(SignedOutEvent, None),
                                   InitAdminChecked(Resolved(true))])) == View(None, false, true)
  {
    RunThree(Initial(), SessionRead(Resolved(Some(u))), AuthStateChange(SignedOutEvent, None), InitAdminChecked(Resolved(true)));
  }

  /**
   * The `finally` of `initializeAuth` turns loading off even while a
   * handler's admin check for a newly signed-in user is still in flight.
   */
  lemma InitFinallyOverridesPendingCheck(u: User, v: User)
    ensures var s := Run(Initial(), [SessionRead(Resolved(Some(u))), AuthStateChange(SignedInEvent, Some(Session(Some(v)))),
                                     InitAdminChecked(Resolved(false))]);
      !s.loading && s.pendingChecks == 1 && s.user == Some(v) && !s.isAdmin
  {
    RunThree(Initial(), SessionRead(Resolved(Some(u))), AuthStateChange(SignedInEvent, Some(Session(Some(v)))), InitAdminChecked(Resolved(false)));
  }

  class Provider {
    var user: Option<User>
    var loading: bool
    var isAdmin: bool
    var mounted: bool
    var subscribed: bool
    var init: InitPhase
    var pendingChecks: nat

    function State(): AuthState
      reads this
    {
      AuthState(user, loading, isAdmin, mounted, subscribed, init, pendingChecks)
    }

    /** Mounting: the three `useState` initial values, then the effect starts initialisation and subscribes. */
    constructor ()
      ensures State() == Initial()
      ensures user.None? && loading && !isAdmin
    {
      user := None;
      loading := true;
      isAdmin := false;
      mounted := true;
      init := AwaitingSession;
      subscribed := true;
      pendingChecks := 0;
    }

    /** `initializeAuth` resumes after `getCurrentUser()`. */
    method OnSessionRead(lookup: Lookup<Option<User>>)
      requires init == AwaitingSession
      modifies this
      ensures State() == Next(old(State()), SessionRead(lookup))
    {
      if lookup.Resolved? && mounted {
        user := lookup.value;
        if lookup.value.Some? {
          // suspended at `await authService.isAdmin()`; `finally` has not run yet
          init := AwaitingAdmin;
          return;
        }
      }
      init := InitDone;
      if mounted {
        loading := false;
      }
    }

    /** `initializeAuth` resumes after `isAdmin()`; the `catch` only logs. */
    method OnInitAdminChecked(lookup: Lookup<bool>)
      requires init == AwaitingAdmin
      modifies this
      ensures State() == Next(old(State()), InitAdminChecked(lookup))
    {
      if lookup.Resolved? && mounted {
        isAdmin := lookup.value;
      }
      init := InitDone;
      if mounted {
        loading := false;
      }
    }

    /** The `onAuthStateChange` handler, up to its `await authService.isAdmin()`. */
    method OnAuthStateChange(event: AuthEvent, session: Option<Session>)
      requires subscribed
      modifies this
      ensures State() == Next(old(State()), AuthStateChange(event, session))
    {
      if !mounted {
        return;
      }
      if event == TokenRefreshedEvent {
        return;
      }
      var currentUser := GetCurrentUser(session);
      user := currentUser;
      if currentUser.Some? {
        loading := true;
        pendingChecks := pendingChecks + 1;
      } else {
        isAdmin := false;
        loading := false;
      }
    }

    /** A suspended handler resumes after `isAdmin()`: on a throw `isAdmin` is false; `finally` stops loading. */
    method OnHandlerAdminChecked(lookup: Lookup<bool>)
      requires pendingChecks > 0
      modifies this
      ensures State() == Next(old(State()), HandlerAdminChecked(lookup))
    {
      pendingChecks := pendingChecks - 1;
      match lookup {
        case Resolved(admin) =>
          if mounted {
            isAdmin := admin;
          }
        case Threw(_) =>
          if mounted {
            isAdmin := false;
          }
      }
      if mounted {
        loading := false;
      }
    }

    /** The effect's cleanup: `mounted = false` and the subscription is released. */
    method Dispose()
      requires mounted
      modifies this
      ensures State() == Next(old(State()), Unmount)
    {
      mounted := false;
      subscribed := false;
    }
  }
}
