/**
 * The authentication session hook: the current user, a loading flag and an
 * initialization error, reconciled with the auth backend. Mounting starts an
 * initialization that reads the stored session and then subscribes to the
 * backend's auth-state events; unmounting marks the hook inert. The sign-in,
 * sign-up and sign-out actions only raise and clear the loading flag around
 * the backend call: the user changes through the event listener alone.
 *
 * Each handler is one atomic step; the backend's answers are parameters.
 */
module Auth {
  import opened Wrappers

  /** The signed-in user, identified by its id. */
  type UserId = string

  datatype AuthError = AuthError(message: string)

  /** What `getSession()` resolved to: a session (holding a user or not), or an error. */
  datatype SessionResult = Session(user: Option<UserId>) | SessionFailed(error: AuthError)

  /** The call an action makes on the auth backend. */
  datatype AuthRequest =
    | PasswordSignIn(email: string, password: string)
    | PasswordSignUp(email: string, password: string)
    | SignOutRequest

  class AuthSession {
    var user: Option<UserId>
    var loading: bool
    var error: Option<AuthError>
    /** Cleared by the mount effect's cleanup; guards every state write of initialization and the listener. */
    var isMounted: bool
    /** The auth-state listener is registered (it is never removed: its unsubscribe handle is discarded). */
    var subscribed: bool
    /** Initialization has run to its end. */
    ghost var initialized: bool

    /**
     * A user can only have come from a session seen by a completed
     * initialization, which then subscribes; an initialization error ends
     * before the subscription, so it leaves no user and no listener.
     */
    ghost predicate Valid()
      reads this
    {
      && (subscribed ==> initialized)
      && (user.Some? ==> subscribed)
      && (error.Some? ==> initialized && !subscribed && user.None?)
    }

    /** The hook's first render: no user, loading, no error. */
    constructor ()
      ensures Valid()
      ensures user.None? && loading && error.None?
      ensures isMounted && !subscribed && !initialized
    {
      user, loading, error := None, true, None;
      isMounted, subscribed, initialized := true, false, false;
    }

    /**
     * `initializeAuth` after `getSession()` resolved. A session user is taken
     * over, no user leaves `user` as it is; either way loading ends and the
     * listener is registered (even when already unmounted). An error is
     * recorded, not rethrown, and no listener is registered. While unmounted
     * nothing of `user`, `loading` or `error` changes.
     */
    method CompleteInitialization(result: SessionResult)
      requires Valid() && !initialized
      modifies this
      ensures Valid() && initialized && isMounted == old(isMounted)
      ensures subscribed <==> result.Session?
      ensures !old(isMounted) ==> user == old(user) && loading == old(loading) && error == old(error)
      ensures old(isMounted) && result.Session? ==>
        user == (if result.user.Some? then result.user else old(user)) && !loading && error == old(error)
      ensures old(isMounted) && result.SessionFailed? ==>
        error == Some(result.error) && !loading && user == old(user)
    {
      match result {
        case SessionFailed(e) =>
          if isMounted {
            error := Some(e);
            loading := false;
          }
        case Session(u) =>
          if isMounted {
            if u.Some? {
              user := u;
            }
            loading := false;
          }
          subscribed := true;
      }
      initialized := true;
    }

    /**
     * The auth-state listener: the event's session user, or none, replaces
     * `user`, and loading ends. Without a registered listener, or once
     * unmounted, nothing changes.
     */
    method OnAuthStateChange(sessionUser: Option<UserId>)
      requires Valid()
      modifies this
      ensures Valid()
      ensures old(subscribed) && old(isMounted) ==> user == sessionUser && !loading && error == old(error)
      ensures !(old(subscribed) && old(isMounted)) ==> user == old(user) && loading == old(loading) && error == old(error)
      ensures isMounted == old(isMounted) && subscribed == old(subscribed) && initialized == old(initialized)
    {
      if subscribed && isMounted {
        user := sessionUser;
        loading := false;
      }
    }

    /** The mount effect's cleanup. */
    method Unmount()
      requires Valid()
      modifies this
      ensures Valid() && !isMounted
      ensures user == old(user) && loading == old(loading) && error == old(error)
      ensures subscribed == old(subscribed) && initialized == old(initialized)
    {
      isMounted := false;
    }

    /** Entry of `signIn`, `signUp` or `signOut`: `setLoading(true)`. */
    method BeginAction()
      requires Valid()
      modifies this`loading
      ensures Valid() && loading
    {
      loading := true;
    }

    /** Every exit of those actions, success or throw: `finally setLoading(false)`, and the backend error rethrown as is. */
    method EndAction(backendError: Option<AuthError>) returns (thrown: Option<AuthError>)
      requires Valid()
      modifies this`loading
      ensures Valid() && !loading
      ensures thrown == backendError
    {
      loading := false;
      thrown := backendError;
    }

    /** `signIn(email, password)`: the credentials go to the backend unchanged; only `loading` is written. */
    method SignIn(email: string, password: string, backendError: Option<AuthError>) returns (sent: AuthRequest, thrown: Option<AuthError>)
      requires Valid()
      modifies this`loading
      ensures Valid() && !loading
      ensures sent == PasswordSignIn(email, password) && thrown == backendError
      ensures user == old(user) && error == old(error)
    {
      BeginAction();
      sent := PasswordSignIn(email, password);
      thrown := EndAction(backendError);
    }

    /** `signUp(email, password)`: as `signIn`, with registration instead. */
    method SignUp(email: string, password: string, backendError: Option<AuthError>) returns (sent: AuthRequest, thrown: Option<AuthError>)
      requires Valid()
      modifies this`loading
      ensures Valid() && !loading
      ensures sent == PasswordSignUp(email, password) && thrown == backendError
      ensures user == old(user) && error == old(error)
    {
      BeginAction();
      sent := PasswordSignUp(email, password);
      thrown := EndAction(backendError);
    }

    /** `signOut()`: the user is cleared later, by the listener's event, not here. */
    method SignOut(backendError: Option<AuthError>) returns (sent: AuthRequest, thrown: Option<AuthError>)
      requires Valid()
      modifies this`loading
      ensures Valid() && !loading
      ensures sent == SignOutRequest && thrown == backendError
      ensures user == old(user) && error == old(error)
    {
      BeginAction();
      sent := SignOutRequest;
      thrown := EndAction(backendError);
    }
  }

  /** A sign-in, sign-out and teardown sequence, as a client of the hook sees it. */
  method SessionScenario(u: UserId, v: UserId)
  {
    var auth := new AuthSession();
    auth.CompleteInitialization(Session(None));
    assert auth.user.None? && !auth.loading && auth.subscribed;

    var sent, thrown := auth.SignIn("runner@example.com", "secret", None);
    assert auth.user.None? && !auth.loading;
    auth.OnAuthStateChange(Some(u));
    assert auth.user == Some(u);

    sent, thrown := auth.SignOut(Some(AuthError("network")));
    assert thrown == Some(AuthError("network")) && auth.user == Some(u);
    auth.OnAuthStateChange(None);
    assert auth.user.None?;

    auth.Unmount();
    auth.OnAuthStateChange(Some(v));
    assert auth.user.None?;
  }

  /** A failed `getSession()` records the error and leaves no listener, so later events change nothing. */
  method FailedInitializationScenario(u: UserId)
  {
    var auth := new AuthSession();
    auth.CompleteInitialization(SessionFailed(AuthError("offline")));
    assert auth.error == Some(AuthError("offline")) && !auth.loading && !auth.subscribed;
    auth.OnAuthStateChange(Some(u));
    assert auth.user.None?;
  }
}
