/** The sign-in / sign-up dialog of `components/auth-modal.jsx`: the empty-field
    guard in front of `login`, the signup validation that builds the error map one
    field at a time, and what each outcome does to the dialog's state. The store the
    dialog calls is the `Auth.AuthStore`; the clock values it needs are passed
    through. */
module AuthModal {
  import opened Wrappers
  import Auth

  datatype LoginForm = LoginForm(email: string, password: string)

  datatype SignupForm = SignupForm(firstName: string, lastName: string, email: string,
                                   password: string, confirmPassword: string, newsletter: bool)

  /** The keys the error object uses: one per form field, and `general` for the
      store's answer. */
  datatype Field = FirstName | LastName | Email | Password | ConfirmPassword | General

  type Errors = map<Field, string>

  const EmptyLogin := LoginForm("", "")
  const EmptySignup := SignupForm("", "", "", "", "", false)
  const FillInAll := "Please fill in all fields"
  const FirstNameRequired := "First name is required"
  const LastNameRequired := "Last name is required"
  const EmailRequired := "Email is required"
  const PasswordRequired := "Password is required"
  const PasswordTooShort := "Password must be at least 6 characters"
  const PasswordsDiffer := "Passwords do not match"

  /** The fields validation can complain about. */
  const ErrorFields: set<Field> := {FirstName, LastName, Email, Password, ConfirmPassword}

  /** Whether validation finds a problem with `field`. An empty password is shorter
      than six characters, so the only password problem left is the length. */
  predicate Fails(d: SignupForm, field: Field) {
    match field
    case FirstName => d.firstName == ""
    case LastName => d.lastName == ""
    case Email => d.email == ""
    case Password => |d.password| < 6
    case ConfirmPassword => d.password != d.confirmPassword
    case General => false
  }

  /** The message shown for a failing field; `General` never fails validation. */
  function Message(field: Field): string {
    match field
    case FirstName => FirstNameRequired
    case LastName => LastNameRequired
    case Email => EmailRequired
    case Password => PasswordTooShort
    case ConfirmPassword => PasswordsDiffer
    case General => ""
  }

  /** The messages for the failing fields among `fields`. */
  function ErrorsOver(d: SignupForm, fields: set<Field>): Errors {
    map f | f in fields && Fails(d, f) :: Message(f)
  }

  /** The error map validation produces: one message per failing field. */
  function SignupErrors(d: SignupForm): Errors {
    ErrorsOver(d, ErrorFields)
  }

  /** Everything validation asks for holds. */
  predicate SignupValid(d: SignupForm) {
    d.firstName != "" && d.lastName != "" && d.email != "" && |d.password| >= 6 &&
    d.password == d.confirmPassword
  }

  /** The record `signup` receives. */
  function ToSignupData(d: SignupForm): Auth.SignupData {
    Auth.SignupData(d.firstName, d.lastName, d.email, Some(d.newsletter))
  }

  /** `newErrors` in `handleSignup`, built by successive assignments: an empty
      password first gets "Password is required", which the length check then
      overwrites. */
  method Validate(d: SignupForm) returns (errors: Errors)
    ensures errors == SignupErrors(d)
  {
    errors := map[];
    assert errors == ErrorsOver(d, {});
    if d.firstName == "" { errors := errors[FirstName := FirstNameRequired]; }
    assert errors == ErrorsOver(d, {FirstName}) by {
      ErrorsOverAdd(d, {}, FirstName);
    }
    if d.lastName == "" { errors := errors[LastName := LastNameRequired]; }
    assert errors == ErrorsOver(d, {FirstName, LastName}) by {
      ErrorsOverAdd(d, {FirstName}, LastName);
    }
    if d.email == "" { errors := errors[Email := EmailRequired]; }
    assert errors == ErrorsOver(d, {FirstName, LastName, Email}) by {
      ErrorsOverAdd(d, {FirstName, LastName}, Email);
    }
    ghost var before := errors;
    if d.password == "" { errors := errors[Password := PasswordRequired]; }
    if |d.password| < 6 { errors := errors[Password := PasswordTooShort]; }
    assert errors == ErrorsOver(d, {FirstName, LastName, Email, Password}) by {
      PasswordChecks(d, before, {FirstName, LastName, Email});
    }
    if d.password != d.confirmPassword {
      errors := errors[ConfirmPassword := PasswordsDiffer];
    }
    assert errors == ErrorsOver(d, ErrorFields) by {
      ErrorsOverAdd(d, {FirstName, LastName, Email, Password}, ConfirmPassword);
      assert {FirstName, LastName, Email, Password} + {ConfirmPassword} == ErrorFields;
    }
  }

  class Modal {
    var isOpen: bool
    var loginData: LoginForm
    var signupData: SignupForm
    var errors: Errors

    constructor ()
      ensures !isOpen && loginData == EmptyLogin && signupData == EmptySignup && errors == map[]
    {
      isOpen := false;
      loginData := EmptyLogin;
      signupData := EmptySignup;
      errors := map[];
    }

    /** `handleLogin`. With an empty field the store is not called at all; otherwise
        a success closes the dialog and clears the form, and a failure shows the
        store's message. */
    method HandleLogin(store: Auth.AuthStore, now: int, joinDate: string)
      modifies this, store
      ensures signupData == old(signupData)
      ensures old(loginData.email == "" || loginData.password == "") ==>
                errors == map[General := FillInAll] &&
                store.State() == old(store.State()) &&
                isOpen == old(isOpen) && loginData == old(loginData)
      ensures old(loginData.email != "" && loginData.password != "") ==>
                store.State() == Auth.Reduce(Auth.Reduce(old(store.State()), Auth.SetLoading(true)),
                  Auth.AuthAction.Login(Auth.LoginUser(old(loginData.email), now, joinDate))) &&
                !isOpen && loginData == EmptyLogin && errors == map[]
    {
      errors := map[];
      if loginData.email == "" || loginData.password == "" {
        errors := map[General := FillInAll];
        return;
      }
      var result := store.Login(loginData.email, loginData.password, now, joinDate);
      // The guard has already turned away every pair of credentials the store refuses,
      // so the branch that shows the store's error is never taken.
      assert result.success;
      isOpen := false;
      loginData := EmptyLogin;
    }

    /** `handleSignup`: validation errors stop it before the store is called;
        otherwise the store signs the user up, and the dialog closes and clears the
        form. */
    method HandleSignup(store: Auth.AuthStore, now: int, joinDate: string)
      modifies this, store
      ensures loginData == old(loginData)
      ensures !SignupValid(old(signupData)) ==>
                errors == SignupErrors(old(signupData)) &&
                store.State() == old(store.State()) &&
                isOpen == old(isOpen) && signupData == old(signupData)
      ensures SignupValid(old(signupData)) ==>
                store.State() == Auth.Reduce(Auth.Reduce(old(store.State()), Auth.SetLoading(true)),
                  Auth.AuthAction.Login(Auth.SignupUser(ToSignupData(old(signupData)), now, joinDate))) &&
                !isOpen && signupData == EmptySignup && errors == map[]
    {
      errors := map[];
      var found := Validate(signupData);
      SignupErrorsEmpty(signupData);
      if |found| > 0 {
        errors := found;
        return;
      }
      var result := store.Signup(ToSignupData(signupData), now, joinDate);
      // `signup` always succeeds, so the branch that shows its error is never taken.
      assert result.success;
      isOpen := false;
      signupData := EmptySignup;
    }
  }

  // ---------------------------------------------------------------- lemmas

  /** One more field checked: its message is added when it fails. */
  lemma ErrorsOverAdd(d: SignupForm, fields: set<Field>, g: Field)
    requires g !in fields
    ensures ErrorsOver(d, fields + {g}) ==
              if Fails(d, g) then ErrorsOver(d, fields)[g := Message(g)] else ErrorsOver(d, fields)
  {
  }

  /** The two password checks together: the length message replaces the "required"
      one, so the password's entry is that of a single check on the length. */
  lemma PasswordChecks(d: SignupForm, e: Errors, fields: set<Field>)
    requires Password !in fields && e == ErrorsOver(d, fields)
    ensures var e1 := if d.password == "" then e[Password := PasswordRequired] else e;
      (if |d.password| < 6 then e1[Password := PasswordTooShort] else e1)
        == ErrorsOver(d, fields + {Password})
  {
    ErrorsOverAdd(d, fields, Password);
    if d.password == "" {
      assert |d.password| < 6;
      assert e[Password := PasswordRequired][Password := PasswordTooShort]
        == e[Password := PasswordTooShort];
    }
  }

  /** Validation finds nothing exactly when the form is valid, so `signup` is called
      iff the error map is empty. */
  lemma SignupErrorsEmpty(d: SignupForm)
    ensures |SignupErrors(d)| == 0 <==> SignupValid(d)
  {
    var e := SignupErrors(d);
    if !SignupValid(d) {
      var f :| f in ErrorFields && Fails(d, f);
      assert f in e;
    } else {
      assert forall f :: f in ErrorFields ==> !Fails(d, f);
      assert e == map[];
    }
  }

  /** Each missing name or email gets its own "required" message; a password shorter
      than six characters, the empty one included, gets the length message and never
      "Password is required"; differing passwords get the confirmation message. */
  lemma SignupErrorsSpec(d: SignupForm)
    ensures (FirstName in SignupErrors(d) <==> d.firstName == "") &&
            (d.firstName == "" ==> SignupErrors(d)[FirstName] == "First name is required")
    ensures (LastName in SignupErrors(d) <==> d.lastName == "") &&
            (d.lastName == "" ==> SignupErrors(d)[LastName] == "Last name is required")
    ensures (Email in SignupErrors(d) <==> d.email == "") &&
            (d.email == "" ==> SignupErrors(d)[Email] == "Email is required")
    ensures (Password in SignupErrors(d) <==> |d.password| < 6) &&
            (|d.password| < 6 ==> SignupErrors(d)[Password] == "Password must be at least 6 characters")
    ensures (ConfirmPassword in SignupErrors(d) <==> d.password != d.confirmPassword) &&
            (d.password != d.confirmPassword ==> SignupErrors(d)[ConfirmPassword] == "Passwords do not match")
    ensures SignupErrors(d).Keys <= ErrorFields
    ensures forall f :: f in SignupErrors(d) ==> SignupErrors(d)[f] != "Password is required"
  {
  }

  /** Every field the empty form starts with fails except the password confirmation,
      which matches the empty password. */
  lemma EmptySignupErrors()
    ensures SignupErrors(EmptySignup).Keys == {FirstName, LastName, Email, Password}
  {
    var e := SignupErrors(EmptySignup);
    assert Fails(EmptySignup, FirstName) && Fails(EmptySignup, LastName);
    assert Fails(EmptySignup, Email) && Fails(EmptySignup, Password);
    assert !Fails(EmptySignup, ConfirmPassword);
  }
}
