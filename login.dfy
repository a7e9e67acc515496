/**
 * The login / sign-up page (Login.tsx): a test-only credential check against
 * a hard-coded pair and the accounts stored in session storage, sign-up that
 * stores a new account and logs it in, and a toggle between the two forms.
 */
module Login {
  import opened Wrappers
  import opened Forms
  import opened Session

  const DefaultEmail: string := "admin@anscer.com"
  const DefaultPassword: string := "Admin123!"
  const MinPasswordLength: nat := 6

  datatype Field = Email | Password | ConfirmPassword

  datatype LoginData = LoginData(email: string, password: string)
  datatype SignupData = SignupData(email: string, password: string, confirmPassword: string)

  const EmptyLogin: LoginData := LoginData("", "")
  const EmptySignup: SignupData := SignupData("", "", "")

  const InvalidEmailText: string := "Invalid email format"
  const ShortPasswordText: string := "Password must be at least 6 characters"
  const ConfirmRequiredText: string := "Confirm password is required"
  const MismatchText: string := "Passwords do not match"
  const InvalidCredentialsText: string := "Invalid email or password"
  const EmailTakenText: string := "Email already exists"

  /** The issues `loginSchema.parse` reports; `isEmail` stands for the schema's email-format check. */
  function LoginIssues(d: LoginData, isEmail: string -> bool): seq<Issue<Field>>
  {
    (if isEmail(d.email) then [] else [Issue(Email, InvalidEmailText)])
    + (if Utf16Length(d.password) >= MinPasswordLength then [] else [Issue(Password, ShortPasswordText)])
  }

  /**
   * The issues `signupSchema.parse` reports: the three field checks, then the
   * cross-field refinement, which runs even when a field check failed and so
   * comes last.
   */
  function SignupIssues(d: SignupData, isEmail: string -> bool): seq<Issue<Field>>
  {
    (if isEmail(d.email) then [] else [Issue(Email, InvalidEmailText)])
    + (if Utf16Length(d.password) >= MinPasswordLength then [] else [Issue(Password, ShortPasswordText)])
    + (if Utf16Length(d.confirmPassword) >= MinPasswordLength then [] else [Issue(ConfirmPassword, ConfirmRequiredText)])
    + (if d.password == d.confirmPassword then [] else [Issue(ConfirmPassword, MismatchText)])
  }

  /** A password shorter than 6 UTF-16 code units is reported on the password field, and the login does not parse. */
  lemma ShortPasswordRejected(d: LoginData, isEmail: string -> bool)
    requires Utf16Length(d.password) < 6
    ensures LoginIssues(d, isEmail) != []
    ensures LastMessage(LoginIssues(d, isEmail), Password) == Some("Password must be at least 6 characters")
  {
    var a := if isEmail(d.email) then [] else [Issue(Email, InvalidEmailText)];
    LastMessageAppend(a, [Issue(Password, ShortPasswordText)], Password);
  }

  /** Mismatched passwords are reported on confirmPassword as "Passwords do not match", whatever else fails. */
  lemma MismatchReported(d: SignupData, isEmail: string -> bool)
    requires d.password != d.confirmPassword
    ensures SignupIssues(d, isEmail) != []
    ensures LastMessage(SignupIssues(d, isEmail), ConfirmPassword) == Some("Passwords do not match")
  {
    var fields :=
      (if isEmail(d.email) then [] else [Issue(Email, InvalidEmailText)])
      + (if Utf16Length(d.password) >= MinPasswordLength then [] else [Issue(Password, ShortPasswordText)])
      + (if Utf16Length(d.confirmPassword) >= MinPasswordLength then [] else [Issue(ConfirmPassword, ConfirmRequiredText)]);
    LastMessageAppend(fields, [Issue(ConfirmPassword, MismatchText)], ConfirmPassword);
  }

  /** The sign-up form parses exactly when the email is well formed, both passwords have 6+ UTF-16 code units, and they match. */
  lemma SignupParsesIff(d: SignupData, isEmail: string -> bool)
    ensures SignupIssues(d, isEmail) == [] <==>
      isEmail(d.email) && Utf16Length(d.password) >= 6 && Utf16Length(d.confirmPassword) >= 6 && d.password == d.confirmPassword
  {
  }

  /** Three emoji make a long enough password: the length check counts UTF-16 code units, not characters. */
  lemma EmojiPasswordLongEnough(email: string, isEmail: string -> bool)
    ensures LastMessage(LoginIssues(LoginData(email, "\U{1F600}\U{1F600}\U{1F600}"), isEmail), Password) == None
  {
    Utf16LengthOfEmoji();
    var a := if isEmail(email) then [] else [Issue(Email, InvalidEmailText)];
    LastMessageAppend<Field>(a, [], Password);
  }

  /** Whether the credential check lets `email`/`password` in: the default pair, or a stored account with that password. */
  predicate Accepted(users: map<string, string>, email: string, password: string)
  {
    (email == DefaultEmail && password == DefaultPassword)
    || (email in users && users[email] == password)
  }

  /** After signing up, logging in with the same email and password succeeds. */
  lemma SignupThenLogin(users: map<string, string>, d: SignupData, isEmail: string -> bool)
    requires SignupIssues(d, isEmail) == [] && d.email !in users
    ensures LoginIssues(LoginData(d.email, d.password), isEmail) == []
    ensures Accepted(users[d.email := d.password], d.email, d.password)
  {
    SignupParsesIff(d, isEmail);
  }

  /** Signing up never changes which credentials an existing account accepts. */
  lemma SignupKeepsOtherAccounts(users: map<string, string>, newEmail: string, newPassword: string, email: string, password: string)
    requires newEmail !in users && email != newEmail
    ensures Accepted(users[newEmail := newPassword], email, password) == Accepted(users, email, password)
  {
  }

  class LoginPage {
    const session: SessionStorage
    /** The schema's email-format check, which the model leaves abstract. */
    const isEmail: string -> bool
    var isSignup: bool
    var loginData: LoginData
    var signupData: SignupData
    var errors: map<Field, string>
    var authError: Option<string>

    constructor (session: SessionStorage, isEmail: string -> bool)
      ensures this.session == session && this.isEmail == isEmail
      ensures !isSignup && loginData == EmptyLogin && signupData == EmptySignup
      ensures errors == map[] && authError == None
    {
      this.session := session;
      this.isEmail := isEmail;
      isSignup := false;
      loginData := EmptyLogin;
      signupData := EmptySignup;
      errors := map[];
      authError := None;
    }

    /** Typing into the login form: that field changes, its error and the auth error are cleared. */
    method HandleLoginChange(name: Field, value: string)
      requires name != ConfirmPassword
      modifies this
      ensures loginData == if name == Email then old(loginData).(email := value) else old(loginData).(password := value)
      ensures errors == old(errors) - {name} && authError == None
      ensures isSignup == old(isSignup) && signupData == old(signupData)
    {
      loginData := if name == Email then loginData.(email := value) else loginData.(password := value);
      errors := errors - {name};
      authError := None;
    }

    /** Typing into the sign-up form: that field changes, its error and the auth error are cleared. */
    method HandleSignupChange(name: Field, value: string)
      modifies this
      ensures signupData == match name
        case Email => old(signupData).(email := value)
        case Password => old(signupData).(password := value)
        case ConfirmPassword => old(signupData).(confirmPassword := value)
      ensures errors == old(errors) - {name} && authError == None
      ensures isSignup == old(isSignup) && loginData == old(loginData)
    {
      signupData := match name
        case Email => signupData.(email := value)
        case Password => signupData.(password := value)
        case ConfirmPassword => signupData.(confirmPassword := value);
      errors := errors - {name};
      authError := None;
    }

    /**
     * Login: a form that does not parse only records its field errors (no
     * credential check runs); otherwise the credentials are checked.
     */
    method HandleLogin()
      modifies this, session
      ensures loginData == old(loginData) && signupData == old(signupData) && isSignup == old(isSignup)
      ensures session.users == old(session.users)
      ensures LoginIssues(loginData, isEmail) != [] ==>
        && (forall f :: Lookup(errors, f) == LastMessage(LoginIssues(loginData, isEmail), f))
        && authError == old(authError)
        && session.dummyAuth == old(session.dummyAuth) && session.authEvents == old(session.authEvents)
      ensures LoginIssues(loginData, isEmail) == [] && Accepted(session.users, loginData.email, loginData.password) ==>
        && session.dummyAuth == Some(loginData.email)
        && session.authEvents == old(session.authEvents) + 1
        && errors == old(errors) && authError == old(authError)
      ensures LoginIssues(loginData, isEmail) == [] && !Accepted(session.users, loginData.email, loginData.password) ==>
        && authError == Some(InvalidCredentialsText)
        && session.dummyAuth == old(session.dummyAuth) && session.authEvents == old(session.authEvents)
        && errors == old(errors)
    {
      var issues := LoginIssues(loginData, isEmail);
      if issues != [] {
        var newErrors := CollectFieldErrors(issues);
        errors := newErrors;
        return;
      }
      CheckCredentials();
    }

    /**
     * The credential check of a parsed login form: the hard-coded pair, then
     * a stored account with that password, store the email as the auth
     * marker and dispatch "authStateChanged"; anything else reports
     * "Invalid email or password" and leaves the marker alone.
     */
    method CheckCredentials()
      modifies this, session
      ensures loginData == old(loginData) && signupData == old(signupData) && isSignup == old(isSignup)
      ensures session.users == old(session.users) && errors == old(errors)
      ensures Accepted(session.users, loginData.email, loginData.password) ==>
        && session.dummyAuth == Some(loginData.email)
        && session.authEvents == old(session.authEvents) + 1
        && authError == old(authError)
      ensures !Accepted(session.users, loginData.email, loginData.password) ==>
        && authError == Some(InvalidCredentialsText)
        && session.dummyAuth == old(session.dummyAuth) && session.authEvents == old(session.authEvents)
    {
      if loginData.email == DefaultEmail && loginData.password == DefaultPassword {
        session.dummyAuth := Some(loginData.email);
        session.authEvents := session.authEvents + 1;
        return;
      }
      var storedUsers := session.users;
      if loginData.email in storedUsers && storedUsers[loginData.email] == loginData.password {
        session.dummyAuth := Some(loginData.email);
        session.authEvents := session.authEvents + 1;
        return;
      }
      authError := Some(InvalidCredentialsText);
    }

    /**
     * Sign-up: a form that does not parse only records its field errors; an
     * email already stored is refused with "Email already exists" and the
     * store is left as it was; otherwise exactly that account is added, every
     * other account is kept, and the new email is logged in.
     */
    method HandleSignup()
      modifies this, session
      ensures loginData == old(loginData) && signupData == old(signupData) && isSignup == old(isSignup)
      ensures SignupIssues(signupData, isEmail) != [] ==>
        && (forall f :: Lookup(errors, f) == LastMessage(SignupIssues(signupData, isEmail), f))
        && authError == old(authError)
        && session.users == old(session.users)
        && session.dummyAuth == old(session.dummyAuth) && session.authEvents == old(session.authEvents)
      ensures SignupIssues(signupData, isEmail) == [] && signupData.email in old(session.users) ==>
        && authError == Some(EmailTakenText)
        && session.users == old(session.users)
        && session.dummyAuth == old(session.dummyAuth) && session.authEvents == old(session.authEvents)
        && errors == old(errors)
      ensures SignupIssues(signupData, isEmail) == [] && signupData.email !in old(session.users) ==>
        && session.users == old(session.users)[signupData.email := signupData.password]
        && session.dummyAuth == Some(signupData.email)
        && session.authEvents == old(session.authEvents) + 1
        && errors == old(errors) && authError == old(authError)
    {
      var issues := SignupIssues(signupData, isEmail);
      if issues != [] {
        var newErrors := CollectFieldErrors(issues);
        errors := newErrors;
        return;
      }
      var storedUsers := session.users;
      if signupData.email in storedUsers {
        authError := Some(EmailTakenText);
        return;
      }
      storedUsers := storedUsers[signupData.email := signupData.password];
      session.users := storedUsers;
      session.dummyAuth := Some(signupData.email);
      session.authEvents := session.authEvents + 1;
    }

    /** The "Sign Up" / "Login" link: switch forms, clear all errors, empty both forms. */
    method ToggleMode()
      modifies this
      ensures isSignup == !old(isSignup)
      ensures errors == map[] && authError == None
      ensures loginData == EmptyLogin && signupData == EmptySignup
    {
      isSignup := !isSignup;
      errors := map[];
      authError := None;
      loginData := EmptyLogin;
      signupData := EmptySignup;
    }
  }
}
