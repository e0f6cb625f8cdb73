/**
 * The login form's handlers: two text fields, a loading flag and an error
 * message. Submitting checks that both fields are non-empty, then signs in
 * through the auth hook and maps any failure to one fixed message.
 */
module Login {
  import opened Wrappers
  import opened Auth

  const MissingFieldsMessage := "Please enter both email and password"
  const InvalidCredentialsMessage := "Invalid email or password. Please try again."

  class LoginForm {
    var email: string
    var password: string
    var loading: bool
    var error: Option<string>

    constructor ()
      ensures email == "" && password == "" && !loading && error.None?
    {
      email, password, loading, error := "", "", false, None;
    }

    /** The email field's `onChangeText`: takes the text and clears the error. */
    method ChangeEmail(text: string)
      modifies this
      ensures email == text && error.None?
      ensures password == old(password) && loading == old(loading)
    {
      email := text;
      error := None;
    }

    /** The password field's `onChangeText`: takes the text and clears the error. */
    method ChangePassword(text: string)
      modifies this
      ensures password == text && error.None?
      ensures email == old(email) && loading == old(loading)
    {
      password := text;
      error := None;
    }

    /**
     * The part of `handleLogin` before `signIn` is awaited. An empty field
     * sets the missing-fields message and stops there, leaving `loading`
     * alone; any non-empty text, whitespace included, clears the error and
     * raises `loading`.
     */
    method BeginLogin() returns (proceed: bool)
      modifies this
      ensures proceed <==> email != "" && password != ""
      ensures email == old(email) && password == old(password)
      ensures !proceed ==> error == Some(MissingFieldsMessage) && loading == old(loading)
      ensures proceed ==> error.None? && loading
    {
      if email == "" || password == "" {
        error := Some(MissingFieldsMessage);
        return false;
      }
      error := None;
      loading := true;
      proceed := true;
    }

    /**
     * The part after `signIn` settled: any failure shows the fixed message,
     * whatever the backend said; `finally` lowers `loading` on both paths.
     */
    method FinishLogin(thrown: Option<AuthError>)
      modifies this
      ensures !loading
      ensures error == (if thrown.Some? then Some(InvalidCredentialsMessage) else old(error))
      ensures email == old(email) && password == old(password)
    {
      if thrown.Some? {
        error := Some(InvalidCredentialsMessage);
      }
      loading := false;
    }

    /**
     * `handleLogin` as a whole: with both fields filled it signs in with
     * exactly their text and ends with `loading` false and the error either
     * cleared or the fixed message; otherwise the hook is not called at all.
     */
    method HandleLogin(auth: AuthSession, backendError: Option<AuthError>) returns (sent: Option<AuthRequest>)
      requires auth.Valid()
      modifies this, auth`loading
      ensures auth.Valid()
      ensures sent.Some? <==> old(email) != "" && old(password) != ""
      ensures sent.Some? ==> sent.value == PasswordSignIn(old(email), old(password))
      ensures email == old(email) && password == old(password)
      ensures sent.None? ==> error == Some(MissingFieldsMessage) && loading == old(loading) && auth.loading == old(auth.loading)
      ensures sent.Some? ==> !loading && !auth.loading
      ensures sent.Some? ==> error == (if backendError.Some? then Some(InvalidCredentialsMessage) else None)
    {
      var proceed := BeginLogin();
      if !proceed {
        return None;
      }
      var request, thrown := auth.SignIn(email, password, backendError);
      FinishLogin(thrown);
      sent := Some(request);
    }
  }

  /** Whitespace counts as input: a blank-looking email still reaches `signIn`. */
  method WhitespaceScenario()
  {
    var auth := new AuthSession();
    var form := new LoginForm();
    form.ChangeEmail(" ");
    form.ChangePassword("pw");
    var sent := form.HandleLogin(auth, Some(AuthError("Invalid login credentials")));
    assert sent == Some(PasswordSignIn(" ", "pw"));
    assert form.error == Some(InvalidCredentialsMessage) && !form.loading;
    form.ChangePassword("");
    assert form.error.None?;
    sent := form.HandleLogin(auth, None);
    assert sent.None? && form.error == Some(MissingFieldsMessage);
  }
}
