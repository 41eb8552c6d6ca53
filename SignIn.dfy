/** The sign-in page: a form with two submit handlers, one per tab. Each
    handler clears the messages, validates the fields, and then awaits the
    auth provider. The await splits a handler in two: `HandleSignIn` and
    `HandleSignUp` run up to the call, and `AuthReturned` runs once the
    provider answers. */
module SignInPage {
  import opened Base

  const FillInAllFields := "Please fill in all fields."
  const PasswordTooShort := "Password must be at least 6 characters."
  const AccountCreated := "Account created! You can now sign in."
  const HomePath := "/home"

  /** The shortest password sign-up accepts. */
  const MinPasswordLength := 6

  /** The tab a submission comes from. */
  datatype Mode = SignInMode | SignUpMode

  /** What the provider's `signIn` / `signUp` resolves to. */
  datatype AuthOutcome = AuthOk | AuthError(message: string)

  /** A call made to the auth provider. */
  datatype AuthCall = AuthCall(mode: Mode, email: string, password: string)

  /** The message a submission is refused with, if it is refused. Both modes
      check for empty fields first; only sign-up checks the length. */
  function ValidationError(mode: Mode, email: string, password: string): (r: Option<string>)
    ensures r.None?
            <==> (email != "" && password != "" && (mode == SignUpMode ==> |password| >= MinPasswordLength))
    ensures email == "" || password == "" ==> r == Some(FillInAllFields)
    ensures r.Some? ==> r.value == FillInAllFields || (mode == SignUpMode && r.value == PasswordTooShort)
    ensures r == Some(PasswordTooShort)
            <==> (mode == SignUpMode && email != "" && password != "" && |password| < MinPasswordLength)
  {
    if email == "" || password == "" then Some(FillInAllFields)
    else if mode == SignUpMode && |password| < MinPasswordLength then Some(PasswordTooShort)
    else None
  }

  /** Whatever sign-up lets through, sign-in lets through too. */
  lemma SignUpStricter(email: string, password: string)
    ensures ValidationError(SignUpMode, email, password).None?
            ==> ValidationError(SignInMode, email, password).None?
  {
  }

  /** ... but not the converse: a short password is enough to sign in. */
  lemma ShortPasswordSignsIn()
    ensures ValidationError(SignInMode, "a@b.c", "12345").None?
    ensures ValidationError(SignUpMode, "a@b.c", "12345") == Some(PasswordTooShort)
  {
  }

  /** An empty email is reported as empty even when the password is also
      too short: the empty check comes first. */
  lemma EmptyCheckFirst(password: string)
    requires |password| < MinPasswordLength
    ensures ValidationError(SignUpMode, "", password) == Some(FillInAllFields)
  {
  }

  /** The password input's type attribute. */
  datatype InputType = TextInput | PasswordInput

  class SignInForm {
    var email: string
    var password: string
    var error: string
    var success: string
    var isLoading: bool
    var showPassword: bool
    /** The tab whose auth call is awaited, if any. */
    var pending: Option<Mode>
    /** Every call made to the auth provider, in order. */
    var authCalls: seq<AuthCall>
    /** Every route navigated to, in order. */
    var navigations: seq<string>

    /** The spinner shows exactly while a call is awaited; at most one of
        the two alerts is shown; and both are hidden during the call. */
    predicate Valid()
      reads this
    {
      && (isLoading <==> pending.Some?)
      && (error == "" || success == "")
      && (pending.Some? ==> error == "" && success == "")
    }

    /** An empty form with no alerts and nothing awaited. */
    constructor ()
      ensures Valid()
      ensures email == "" && password == "" && error == "" && success == ""
      ensures !isLoading && !showPassword && pending.None?
      ensures authCalls == [] && navigations == []
    {
      email := "";
      password := "";
      error := "";
      success := "";
      isLoading := false;
      showPassword := false;
      pending := None;
      authCalls := [];
      navigations := [];
    }

    /** The error alert and the success alert, each shown when its text is
        non-empty. */
    predicate ShowsError()
      reads this
      ensures Valid() && ShowsError() ==> success == ""
      ensures Valid() && isLoading ==> !ShowsError()
    {
      error != ""
    }

    predicate ShowsSuccess()
      reads this
      ensures Valid() && ShowsSuccess() ==> error == ""
      ensures Valid() && isLoading ==> !ShowsSuccess()
    {
      success != ""
    }

    /** The password is shown as text exactly when the eye toggle is on. */
    function PasswordType(): (t: InputType)
      reads this
      ensures t == TextInput <==> showPassword
    {
      if showPassword then TextInput else PasswordInput
    }

    /** Typing into the email field. */
    method SetEmail(value: string)
      requires Valid()
      modifies this
      ensures Valid()
      ensures email == value
      ensures password == old(password) && error == old(error) && success == old(success)
      ensures isLoading == old(isLoading) && pending == old(pending) && showPassword == old(showPassword)
      ensures authCalls == old(authCalls) && navigations == old(navigations)
    {
      email := value;
    }

    /** Typing into the password field. */
    method SetPassword(value: string)
      requires Valid()
      modifies this
      ensures Valid()
      ensures password == value
      ensures email == old(email) && error == old(error) && success == old(success)
      ensures isLoading == old(isLoading) && pending == old(pending) && showPassword == old(showPassword)
      ensures authCalls == old(authCalls) && navigations == old(navigations)
    {
      password := value;
    }

    /** The eye button. */
    method TogglePasswordVisibility()
      requires Valid()
      modifies this
      ensures Valid()
      ensures showPassword == !old(showPassword)
      ensures email == old(email) && password == old(password)
      ensures error == old(error) && success == old(success)
      ensures isLoading == old(isLoading) && pending == old(pending)
      ensures authCalls == old(authCalls) && navigations == old(navigations)
    {
      showPassword := !showPassword;
    }

    /** A submission from either tab, up to the await: the messages are
        cleared; a refused submission shows its message and calls nobody;
        an accepted one shows the spinner and calls the provider once with
        the current fields. The submit button is disabled while loading. */
    method Submit(mode: Mode) returns (called: bool)
      requires Valid() && !isLoading
      modifies this
      ensures Valid()
      ensures called <==> ValidationError(mode, email, password).None?
      ensures !called ==> error == ValidationError(mode, email, password).value
                          && success == "" && !isLoading && pending.None?
                          && authCalls == old(authCalls)
      ensures called ==> error == "" && success == "" && isLoading && pending == Some(mode)
                         && authCalls == old(authCalls) + [AuthCall(mode, email, password)]
      ensures email == old(email) && password == old(password) && showPassword == old(showPassword)
      ensures navigations == old(navigations)
    {
      error := "";
      success := "";
      var refusal := ValidationError(mode, email, password);
      if refusal.Some? {
        error := refusal.value;
        return false;
      }
      isLoading := true;
      pending := Some(mode);
      authCalls := authCalls + [AuthCall(mode, email, password)];
      return true;
    }

    /** `handleSignIn`, up to the await. */
    method HandleSignIn() returns (called: bool)
      requires Valid() && !isLoading
      modifies this
      ensures Valid()
      ensures called <==> email != "" && password != ""
      ensures !called ==> error == FillInAllFields && success == "" && !isLoading
                          && authCalls == old(authCalls)
      ensures called ==> error == "" && success == "" && pending == Some(SignInMode)
                         && authCalls == old(authCalls) + [AuthCall(SignInMode, email, password)]
      ensures email == old(email) && password == old(password) && showPassword == old(showPassword)
      ensures navigations == old(navigations)
    {
      called := Submit(SignInMode);
    }

    /** `handleSignUp`, up to the await. */
    method HandleSignUp() returns (called: bool)
      requires Valid() && !isLoading
      modifies this
      ensures Valid()
      ensures called <==> email != "" && password != "" && |password| >= MinPasswordLength
      ensures !called && (email == "" || password == "") ==> error == FillInAllFields
      ensures !called && email != "" && password != "" ==> error == PasswordTooShort
      ensures !called ==> success == "" && !isLoading && authCalls == old(authCalls)
      ensures called ==> error == "" && success == "" && pending == Some(SignUpMode)
                         && authCalls == old(authCalls) + [AuthCall(SignUpMode, email, password)]
      ensures email == old(email) && password == old(password) && showPassword == old(showPassword)
      ensures navigations == old(navigations)
    {
      called := Submit(SignUpMode);
    }

    /** The rest of the awaited handler once the provider answers: the
        spinner stops; an error shows the provider's message; a successful
        sign-in goes to the home page; a successful sign-up shows the
        confirmation. */
    method AuthReturned(outcome: AuthOutcome)
      requires Valid() && pending.Some?
      modifies this
      ensures Valid()
      ensures !isLoading && pending.None?
      ensures outcome.AuthError? ==> error == outcome.message && success == ""
                                     && navigations == old(navigations)
      ensures outcome == AuthOk && old(pending) == Some(SignInMode)
              ==> error == "" && success == "" && navigations == old(navigations) + [HomePath]
      ensures outcome == AuthOk && old(pending) == Some(SignUpMode)
              ==> error == "" && success == AccountCreated && navigations == old(navigations)
      ensures email == old(email) && password == old(password) && showPassword == old(showPassword)
      ensures authCalls == old(authCalls)
    {
      var mode := pending.value;
      isLoading := false;
      pending := None;
      match outcome {
        case AuthError(message) =>
          error := message;
        case AuthOk =>
          match mode {
            case SignInMode =>
              navigations := navigations + [HomePath];
            case SignUpMode =>
              success := AccountCreated;
          }
      }
    }
  }
}
