/** The login and registration forms: field validation, the error shown
    under each field ("" when none), and whether the account store's
    `login` / `register` is called at all. */
module LoginForm {
  import opened Wrappers
  import opened EmailPattern
  import Auth

  datatype LoginErrors = LoginErrors(email: string, password: string)

  datatype RegisterErrors = RegisterErrors(
    name: string,
    email: string,
    password: string,
    confirmPassword: string,
    terms: string)

  /** The result of a submit: the errors shown, whether the store was
      called, the store state after, and where the page navigates. */
  datatype Submit<E> = Submit(errors: E, called: bool, auth: Auth.AuthState, navigate: Option<string>)

  const EmailRequired := "Email is required"
  const EmailInvalid := "Please enter a valid email address"
  const PasswordRequired := "Password is required"
  const NameRequired := "Name is required"
  const PasswordTooShort := "Password must be at least 6 characters"
  const ConfirmRequired := "Please confirm your password"
  const PasswordsDiffer := "Passwords do not match"
  const TermsRequired := "You must accept the terms and conditions"

  /** The e-mail error: "required" when empty, otherwise "invalid" only when
      the pattern fails. */
  function EmailFieldError(email: string): (e: string)
    ensures e == EmailRequired <==> email == ""
    ensures e == EmailInvalid <==> email != "" && !MatchesPattern(email)
    ensures e == "" <==> email != "" && MatchesPattern(email)
  {
    if email == "" then EmailRequired
    else if !ValidateEmail(email) then EmailInvalid
    else ""
  }

  /** The errors of the login form; every submit starts from cleared errors,
      so they depend on the inputs alone. */
  function LoginFieldErrors(email: string, password: string): (e: LoginErrors)
    ensures e.email == EmailFieldError(email)
    ensures e.password == "" <==> password != ""
    ensures e.password != "" ==> e.password == PasswordRequired
  {
    LoginErrors(EmailFieldError(email), if password == "" then PasswordRequired else "")
  }

  /** `handleLogin`: validate, and only when nothing failed call `login`;
      on success navigate to "/". */
  function HandleLogin(auth: Auth.AuthState, email: string, password: string): (r: Submit<LoginErrors>)
    ensures r.called <==> email != "" && MatchesPattern(email) && password != ""
    ensures r.called <==> r.errors == LoginErrors("", "")
    ensures !r.called ==> r.auth == auth && r.navigate == None
    ensures r.called ==> r.auth == Auth.Login(auth, email, password).state
    ensures r.navigate.Some? <==> r.called && Auth.Login(auth, email, password).ok
    ensures r.navigate.Some? ==> r.navigate == Some("/")
  {
    var errors := LoginFieldErrors(email, password);
    if errors != LoginErrors("", "") then Submit(errors, false, auth, None)
    else
      var out := Auth.Login(auth, email, password);
      Submit(errors, true, out.state, if out.ok then Some("/") else None)
  }

  function RegisterPasswordError(password: string): string {
    if password == "" then PasswordRequired
    else if |password| < 6 then PasswordTooShort
    else ""
  }

  function ConfirmError(password: string, confirm: string): string {
    if confirm == "" then ConfirmRequired
    else if password != confirm then PasswordsDiffer
    else ""
  }

  /** The errors of the registration form. */
  function RegisterFieldErrors(name: string, email: string, password: string, confirm: string, acceptTerms: bool): (e: RegisterErrors)
    ensures e.name == "" <==> name != ""
    ensures e.email == EmailFieldError(email)
    ensures e.password == "" <==> password != "" && |password| >= 6
    ensures e.confirmPassword == "" <==> confirm != "" && confirm == password
    ensures e.terms == "" <==> acceptTerms
  {
    RegisterErrors(
      if name == "" then NameRequired else "",
      EmailFieldError(email),
      RegisterPasswordError(password),
      ConfirmError(password, confirm),
      if acceptTerms then "" else TermsRequired)
  }

  const NoRegisterErrors := RegisterErrors("", "", "", "", "")

  /** Every check of the registration form passes. */
  ghost predicate RegisterChecksPass(name: string, email: string, password: string, confirm: string, acceptTerms: bool) {
    && name != ""
    && email != "" && MatchesPattern(email)
    && |password| >= 6
    && confirm == password
    && acceptTerms
  }

  /** `handleRegister` at clock reading `now`: validate, and only when
      nothing failed call `register`; on success navigate to "/". */
  function HandleRegister(
    auth: Auth.AuthState, name: string, email: string, password: string, confirm: string, acceptTerms: bool,
    now: nat, createdAt: string): (r: Submit<RegisterErrors>)
    ensures r.called <==> RegisterChecksPass(name, email, password, confirm, acceptTerms)
    ensures r.called <==> r.errors == NoRegisterErrors
    ensures !r.called ==> r.auth == auth && r.navigate == None
    ensures r.called ==> r.auth == Auth.Register(auth, name, email, password, now, createdAt).state
    ensures r.navigate.Some? <==> r.called && Auth.Register(auth, name, email, password, now, createdAt).ok
    ensures r.navigate.Some? ==> r.navigate == Some("/")
  {
    var errors := RegisterFieldErrors(name, email, password, confirm, acceptTerms);
    if errors != NoRegisterErrors then Submit(errors, false, auth, None)
    else
      var out := Auth.Register(auth, name, email, password, now, createdAt);
      Submit(errors, true, out.state, if out.ok then Some("/") else None)
  }

  /** An unchecked terms box alone blocks registration. */
  lemma TermsAloneBlocks(auth: Auth.AuthState, name: string, email: string, password: string, now: nat, createdAt: string)
    ensures var r := HandleRegister(auth, name, email, password, password, false, now, createdAt);
      !r.called && r.errors.terms == TermsRequired && r.auth == auth
  {
  }

  /** Whatever passes the form's checks also passes the store's own input
      check, so a store rejection can only mean the e-mail is taken. */
  lemma FormChecksImplyStoreChecks(name: string, email: string, password: string, confirm: string, acceptTerms: bool)
    requires RegisterChecksPass(name, email, password, confirm, acceptTerms)
    ensures Auth.RegistrationInputOk(name, email, password)
  {
    ValidEmailHasAt(email);
  }

  /** A submitted registration fails only when the e-mail is already taken. */
  lemma SubmittedRegisterFailsOnlyWhenTaken(
    auth: Auth.AuthState, name: string, email: string, password: string, confirm: string, acceptTerms: bool,
    now: nat, createdAt: string)
    requires HandleRegister(auth, name, email, password, confirm, acceptTerms, now, createdAt).called
    ensures HandleRegister(auth, name, email, password, confirm, acceptTerms, now, createdAt).navigate.None?
        <==> Auth.EmailTaken(auth.users, email)
  {
    FormChecksImplyStoreChecks(name, email, password, confirm, acceptTerms);
  }
}
