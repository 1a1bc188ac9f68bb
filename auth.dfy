/**
 * The sign-in page: the login and registration validators and the page state
 * that follows a submitted registration.
 */
module Auth {

  /** The fields a validation message can be attached to. */
  datatype Field = Name | Email | Phone | Password | ConfirmPassword | Role

  const LoginFields: seq<Field> := [Email, Password]
  const RegisterFields: seq<Field> := [Name, Email, Phone, Password, ConfirmPassword, Role]

  /** The shortest password either form accepts. */
  const MinPassword := 6

  // ---------------------------------------------------------------------------
  // Login

  datatype LoginForm = LoginForm(email: string, password: string)

  /**
   * Whether `field` fails its rule in `loginSchema`. `emailValid` is the verdict of
   * the schema library's email check, which this model takes as given.
   */
  predicate LoginFails(f: LoginForm, emailValid: bool, field: Field)
  {
    match field
    case Email => !emailValid
    case Password => |f.password| < MinPassword
    case _ => false
  }

  /** The fields of the login form that carry a validation message. */
  function LoginErrors(f: LoginForm, emailValid: bool): (errs: set<Field>)
    ensures forall field :: field in errs <==> LoginFails(f, emailValid, field)
    ensures errs <= {Email, Password}
  {
    set field | field in LoginFields && LoginFails(f, emailValid, field)
  }

  /** Sign-in is submitted exactly when the email passes and the password is long enough. */
  lemma LoginAcceptedIff(f: LoginForm, emailValid: bool)
    ensures LoginErrors(f, emailValid) == {} <==> emailValid && |f.password| >= MinPassword
  {
    var errs := LoginErrors(f, emailValid);
    if errs == {} {
      assert Email !in errs && Password !in errs;
    } else {
      var field :| field in errs;
      assert LoginFails(f, emailValid, field);
    }
  }

  /** A password shorter than six characters is always rejected. */
  lemma ShortLoginPasswordRejected(f: LoginForm, emailValid: bool)
    requires |f.password| < MinPassword
    ensures Password in LoginErrors(f, emailValid)
  {
  }

  // ---------------------------------------------------------------------------
  // Registration

  datatype RegisterForm = RegisterForm(
    name: string,
    email: string,
    phone: string,
    password: string,
    confirmPassword: string,
    role: string)

  /** The roles the schema's enum admits, which are also the four role buttons. */
  const Roles: seq<string> := ["affected", "volunteer", "ngo", "admin"]

  predicate ValidRole(role: string)
  {
    role in Roles
  }

  /**
   * Whether `field` fails its rule in `registerSchema`. The password-match refinement
   * runs on the whole object and reports on `confirmPassword`; it is skipped when
   * the role is not one of the enum's values, because an enum mismatch aborts the
   * object's parse, while a too-short string does not.
   */
  predicate RegisterFails(f: RegisterForm, emailValid: bool, field: Field)
  {
    match field
    case Name => |f.name| < 2
    case Email => !emailValid
    case Phone => |f.phone| < 10
    case Password => |f.password| < MinPassword
    case ConfirmPassword => ValidRole(f.role) && f.password != f.confirmPassword
    case Role => !ValidRole(f.role)
  }

  /** The fields of the registration form that carry a validation message. */
  function RegisterErrors(f: RegisterForm, emailValid: bool): (errs: set<Field>)
    ensures forall field :: field in errs <==> RegisterFails(f, emailValid, field)
  {
    set field | field in RegisterFields && RegisterFails(f, emailValid, field)
  }

  /** Registration is submitted exactly when every rule, the password match included, holds. */
  lemma RegisterAcceptedIff(f: RegisterForm, emailValid: bool)
    ensures RegisterErrors(f, emailValid) == {} <==>
      |f.name| >= 2 && emailValid && |f.phone| >= 10 && |f.password| >= MinPassword &&
      f.password == f.confirmPassword && ValidRole(f.role)
  {
    var errs := RegisterErrors(f, emailValid);
    if errs == {} {
      assert Name !in errs && Email !in errs && Phone !in errs;
      assert Password !in errs && ConfirmPassword !in errs && Role !in errs;
    } else {
      var field :| field in errs;
      assert RegisterFails(f, emailValid, field);
    }
  }

  /**
   * Differing passwords are never accepted; with a valid role the message is attached
   * to the confirmation field, and the password field is judged on its length alone.
   */
  lemma MismatchRejected(f: RegisterForm, emailValid: bool)
    requires f.password != f.confirmPassword
    ensures RegisterErrors(f, emailValid) != {}
    ensures ValidRole(f.role) ==> ConfirmPassword in RegisterErrors(f, emailValid)
    ensures Password in RegisterErrors(f, emailValid) <==> |f.password| < MinPassword
  {
    if ValidRole(f.role) {
      assert ConfirmPassword in RegisterErrors(f, emailValid);
    } else {
      assert Role in RegisterErrors(f, emailValid);
    }
  }

  const DefaultRegister: RegisterForm := RegisterForm("", "", "", "", "", "affected")

  /**
   * The default role satisfies the enum, and the empty default passwords match, so the
   * default form fails on name, phone and password, and on email if that check fails.
   */
  lemma DefaultRegisterErrors(emailValid: bool)
    ensures ValidRole(DefaultRegister.role)
    ensures RegisterErrors(DefaultRegister, emailValid)
         == {Name, Phone, Password} + (if emailValid then {} else {Email})
  {
    assert Roles[0] == "affected";
    var errs := RegisterErrors(DefaultRegister, emailValid);
    assert ConfirmPassword !in errs && Role !in errs;
  }

  // ---------------------------------------------------------------------------
  // Page state

  /** The page's state: the selected tab and the two submission flags. */
  class AuthPage {
    var activeTab: string
    var isLoggingIn: bool
    var isRegistering: bool

    constructor ()
      ensures activeTab == "login" && !isLoggingIn && !isRegistering
    {
      activeTab := "login";
      isLoggingIn := false;
      isRegistering := false;
    }

    /** The tab strip's change handler. */
    method SetActiveTab(tab: string)
      modifies this
      ensures activeTab == tab
      ensures isLoggingIn == old(isLoggingIn) && isRegistering == old(isRegistering)
    {
      activeTab := tab;
    }

    /**
     * Pressing "Sign In". The button is disabled while a sign-in is pending; otherwise
     * the handler runs only when validation passes, and marks the sign-in pending.
     */
    method SubmitLogin(f: LoginForm, emailValid: bool)
      modifies this
      ensures isLoggingIn == (old(isLoggingIn) || LoginErrors(f, emailValid) == {})
      ensures activeTab == old(activeTab) && isRegistering == old(isRegistering)
    {
      if !isLoggingIn && LoginErrors(f, emailValid) == {} {
        isLoggingIn := true;
      }
    }

    /** The simulated sign-in call completes. */
    method LoginSettled()
      modifies this
      ensures !isLoggingIn
      ensures activeTab == old(activeTab) && isRegistering == old(isRegistering)
    {
      isLoggingIn := false;
    }

    /** Pressing "Create Account", guarded like `SubmitLogin`. */
    method SubmitRegister(f: RegisterForm, emailValid: bool)
      modifies this
      ensures isRegistering == (old(isRegistering) || RegisterErrors(f, emailValid) == {})
      ensures old(isRegistering) || f.password != f.confirmPassword ==> isRegistering == old(isRegistering)
      ensures activeTab == old(activeTab) && isLoggingIn == old(isLoggingIn)
    {
      if f.password != f.confirmPassword {
        MismatchRejected(f, emailValid);
      }
      if !isRegistering && RegisterErrors(f, emailValid) == {} {
        isRegistering := true;
      }
    }

    /** The simulated registration call completes and the page returns to the login tab. */
    method RegistrationSettled()
      modifies this
      ensures !isRegistering && activeTab == "login"
      ensures isLoggingIn == old(isLoggingIn)
    {
      isRegistering := false;
      activeTab := "login";
    }
  }
}
