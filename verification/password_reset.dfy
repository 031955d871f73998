/** The three-step password-reset page (`email` -> `reset` -> `success`) over
    the stored users and the per-e-mail reset codes ("passwordResets" in
    browser storage). Clock readings are milliseconds, passed in. */
module PasswordReset {
  import opened EmailPattern
  import Auth

  datatype Step = EmailStep | ResetStep | SuccessStep

  /** A pending reset: the code and the instant after which it is refused. */
  datatype ResetEntry = ResetEntry(code: string, expiresAt: int)

  /** The page's own state: the step, the four inputs, the four error
      messages ("" when absent) and the code shown in demo mode. */
  datatype Page = Page(
    step: Step,
    email: string,
    resetCode: string,
    newPassword: string,
    confirmPassword: string,
    emailError: string,
    resetCodeError: string,
    passwordError: string,
    confirmPasswordError: string,
    demoResetCode: string)

  /** What the page reads and writes in browser storage. */
  datatype Store = Store(users: seq<Auth.StoredUser>, resets: map<string, ResetEntry>)

  datatype Screen = Screen(page: Page, store: Store)

  /** The fixed code the demo hands out. */
  const DemoCode: string := "123456"

  /** How long a code stays valid: thirty minutes. */
  const ValidityMillis: int := 30 * 60000

  const EmailRequired := "Email is required"
  const EmailInvalid := "Please enter a valid email address"
  const NoAccount := "No account found with this email address"
  const CodeRequired := "Reset code is required"
  const PasswordRequired := "New password is required"
  const PasswordTooShort := "Password must be at least 6 characters"
  const ConfirmRequired := "Please confirm your new password"
  const PasswordsDiffer := "Passwords do not match"
  const CodeInvalid := "Invalid reset code"
  const CodeExpired := "Reset code has expired. Please request a new one"

  /** The page as first shown. */
  function InitialPage(): (p: Page)
    ensures p.step == EmailStep && p.email == "" && p.emailError == ""
  {
    Page(EmailStep, "", "", "", "", "", "", "", "", "")
  }

  /** Some stored user has exactly this e-mail. */
  predicate HasAccount(users: seq<Auth.StoredUser>, email: string) {
    exists j :: 0 <= j < |users| && users[j].email == email
  }

  /** The request goes through: a non-empty, well-formed e-mail of a stored user. */
  ghost predicate RequestAccepted(users: seq<Auth.StoredUser>, email: string) {
    email != "" && MatchesPattern(email) && HasAccount(users, email)
  }

  /** The error the request form reports, "" when the request goes through. */
  function RequestError(users: seq<Auth.StoredUser>, email: string): string {
    if email == "" then EmailRequired
    else if !ValidateEmail(email) then EmailInvalid
    else if !HasAccount(users, email) then NoAccount
    else ""
  }

  /** `handleRequestReset` at clock reading `now`. */
  function RequestReset(p: Page, st: Store, now: int): (r: Screen)
    ensures r.page.emailError != "" ==> r.store == st && r.page.step == p.step
    ensures r.page.emailError == "" <==> RequestAccepted(st.users, p.email)
    ensures r.page.emailError == "" ==>
      && r.store.users == st.users
      && r.store.resets == st.resets[p.email := ResetEntry(DemoCode, now + ValidityMillis)]
      && r.page.step == ResetStep
      && r.page.demoResetCode == DemoCode
    ensures r.page.email == p.email
  {
    var err := RequestError(st.users, p.email);
    if err != "" then Screen(p.(emailError := err), st)
    else
      Screen(
        p.(emailError := "", demoResetCode := DemoCode, step := ResetStep),
        st.(resets := st.resets[p.email := ResetEntry(DemoCode, now + ValidityMillis)]))
  }

  function CodeFieldError(code: string): string {
    if code == "" then CodeRequired else ""
  }

  function PasswordFieldError(password: string): string {
    if password == "" then PasswordRequired
    else if |password| < 6 then PasswordTooShort
    else ""
  }

  function ConfirmFieldError(password: string, confirm: string): string {
    if confirm == "" then ConfirmRequired
    else if password != confirm then PasswordsDiffer
    else ""
  }

  /** Every user with e-mail `email` gets password `password`; the rest stay. */
  function SetPassword(users: seq<Auth.StoredUser>, email: string, password: string): (r: seq<Auth.StoredUser>)
    ensures |r| == |users|
    ensures forall k :: 0 <= k < |users| && users[k].email == email ==> r[k] == users[k].(password := password)
    ensures forall k :: 0 <= k < |users| && users[k].email != email ==> r[k] == users[k]
  {
    seq(|users|, k requires 0 <= k < |users| =>
      if users[k].email == email then users[k].(password := password) else users[k])
  }

  /** `handleResetPassword` at clock reading `now`. Any field error, an
      unknown or wrong code, or an expired code leaves the store alone and
      reports the error; otherwise only the matching users' passwords change
      and the code is consumed. */
  function ResetPassword(p: Page, st: Store, now: int): (r: Screen)
    ensures !FieldsOk(p) ==>
      && r.store == st && r.page.step == p.step
      && (r.page.resetCodeError != "" || r.page.passwordError != "" || r.page.confirmPasswordError != "")
    ensures FieldsOk(p) && (p.email !in st.resets || st.resets[p.email].code != p.resetCode) ==>
      r.store == st && r.page.resetCodeError == CodeInvalid && r.page.step == p.step
    ensures FieldsOk(p) && p.email in st.resets && st.resets[p.email].code == p.resetCode && st.resets[p.email].expiresAt < now ==>
      r.store == st && r.page.resetCodeError == CodeExpired && r.page.step == p.step
    ensures p.step != SuccessStep ==> (r.page.step == SuccessStep <==> FieldsOk(p) && CodeAccepted(p, st, now))
    ensures FieldsOk(p) && CodeAccepted(p, st, now) ==>
      && r.page.step == SuccessStep
      && r.page.resetCodeError == "" && r.page.passwordError == "" && r.page.confirmPasswordError == ""
      && r.store.resets == st.resets - {p.email}
      && |r.store.users| == |st.users|
      && (forall k :: 0 <= k < |st.users| && st.users[k].email != p.email ==> r.store.users[k] == st.users[k])
      && (forall k :: 0 <= k < |st.users| && st.users[k].email == p.email ==>
            r.store.users[k] == st.users[k].(password := p.newPassword))
    ensures r.page.email == p.email && r.page.resetCode == p.resetCode
    ensures r.page.newPassword == p.newPassword && r.page.confirmPassword == p.confirmPassword
  {
    var codeErr := CodeFieldError(p.resetCode);
    var passwordErr := PasswordFieldError(p.newPassword);
    var confirmErr := ConfirmFieldError(p.newPassword, p.confirmPassword);
    var checked := p.(resetCodeError := codeErr, passwordError := passwordErr, confirmPasswordError := confirmErr);
    if codeErr != "" || passwordErr != "" || confirmErr != "" then Screen(checked, st)
    else if p.email !in st.resets || st.resets[p.email].code != p.resetCode then
      Screen(checked.(resetCodeError := CodeInvalid), st)
    else if st.resets[p.email].expiresAt < now then
      Screen(checked.(resetCodeError := CodeExpired), st)
    else
      Screen(
        checked.(step := SuccessStep),
        Store(SetPassword(st.users, p.email, p.newPassword), st.resets - {p.email}))
  }

  /** The "Back" button of the reset step. */
  function Back(p: Page): (r: Page)
    ensures r.step == EmailStep
    ensures r == p.(step := EmailStep)
  {
    p.(step := EmailStep)
  }

  /** The inputs of the reset form pass their own checks. */
  predicate FieldsOk(p: Page) {
    && p.resetCode != ""
    && p.newPassword != "" && |p.newPassword| >= 6
    && p.confirmPassword == p.newPassword
  }

  /** The stored entry for the page's e-mail holds its code and has not expired. */
  predicate CodeAccepted(p: Page, st: Store, now: int) {
    p.email in st.resets && st.resets[p.email].code == p.resetCode && now <= st.resets[p.email].expiresAt
  }

  /** A code whose expiry instant is exactly the current time is still accepted. */
  lemma ExpiryBoundary(p: Page, st: Store, now: int)
    requires FieldsOk(p) && p.email in st.resets && st.resets[p.email].code == p.resetCode
    requires st.resets[p.email].expiresAt == now
    ensures ResetPassword(p, st, now).page.step == SuccessStep
  {
  }

  /** Codes are single use: submitting the same form again after a
      successful reset fails as an invalid code and changes nothing. */
  lemma ReplayFails(p: Page, st: Store, now: int, later: int)
    requires ResetPassword(p, st, now).page.step == SuccessStep
    requires p.step != SuccessStep
    ensures var r := ResetPassword(p, st, now);
      && ResetPassword(r.page, r.store, later).page.resetCodeError == CodeInvalid
      && ResetPassword(r.page, r.store, later).store == r.store
  {
  }

  /** A successful request followed, within thirty minutes, by the reset form
      filled with the demo code and a valid new password succeeds, and the
      new password then logs in. */
  lemma RequestThenReset(p: Page, st: Store, t0: int, t1: int, password: string, auth: Auth.AuthState)
    requires RequestReset(p, st, t0).page.emailError == ""
    requires t1 <= t0 + ValidityMillis
    requires |password| >= 6
    requires auth.users == ResetPassword(
      RequestReset(p, st, t0).page.(resetCode := DemoCode, newPassword := password, confirmPassword := password),
      RequestReset(p, st, t0).store, t1).store.users
    ensures var q := RequestReset(p, st, t0);
      var r := ResetPassword(q.page.(resetCode := DemoCode, newPassword := password, confirmPassword := password), q.store, t1);
      && r.page.step == SuccessStep
      && p.email !in r.store.resets
      && Auth.Login(auth, p.email, password).ok
  {
    var q := RequestReset(p, st, t0);
    var p1 := q.page.(resetCode := DemoCode, newPassword := password, confirmPassword := password);
    assert FieldsOk(p1);
    assert CodeAccepted(p1, q.store, t1);
    var r := ResetPassword(p1, q.store, t1);
    var j :| 0 <= j < |st.users| && st.users[j].email == p.email;
    assert r.store.users[j].email == p.email;
    var f := Auth.FindByEmail(r.store.users, p.email);
    var i := f.value;
    assert r.store.users[i].password == password;
  }

  /** The step moves forward only on success, and back only through "Back". */
  lemma StepTransitions(p: Page, st: Store, now: int)
    ensures RequestReset(p, st, now).page.step == ResetStep <==> p.step == ResetStep || RequestError(st.users, p.email) == ""
    ensures p.step == ResetStep ==>
      (ResetPassword(p, st, now).page.step == SuccessStep <==> FieldsOk(p) && CodeAccepted(p, st, now))
    ensures p.step == ResetStep ==> ResetPassword(p, st, now).page.step in {ResetStep, SuccessStep}
  {
  }
}
