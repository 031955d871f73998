/** The mock account store and session of `AuthContext`: a list of stored
    user records (the "users" entry of browser storage), the signed-in user
    and `isAuthenticated` flag, and the saved session (the "user" entry). */
module Auth {
  import opened Wrappers
  import opened Text
  import opened JsNumber

  /** A record of the stored user list, password included. */
  datatype StoredUser = StoredUser(id: string, name: string, email: string, password: string, createdAt: string)

  /** The session user: a stored record without its password or creation time. */
  datatype User = User(id: string, name: string, email: string)

  /** What the "user" entry of browser storage holds: nothing (or the empty
      string), the JSON of a user, JSON that parses to a falsy value (`null`,
      `false`, `0` or `""`), or text that is not JSON at all. A falsy value
      set as the user is modelled as no user. */
  datatype SavedSession = Absent | Saved(user: User) | SavedNull | Unparseable

  datatype AuthState = AuthState(
    users: seq<StoredUser>,
    user: Option<User>,
    isAuthenticated: bool,
    saved: SavedSession)

  /** The result of `login` / `register`: the returned boolean and the state after. */
  datatype Outcome = Outcome(ok: bool, state: AuthState)

  /** The session invariant: signed in exactly when there is a session user,
      and that user is the one saved in browser storage. */
  predicate Consistent(s: AuthState) {
    && (s.isAuthenticated <==> s.user.Some?)
    && (s.user.Some? ==> s.saved == Saved(s.user.value))
  }

  /** The provider as first rendered: no session user, the stores as found. */
  function Initial(users: seq<StoredUser>, saved: SavedSession): (s: AuthState)
    ensures Consistent(s) && !s.isAuthenticated
  {
    AuthState(users, None, false, saved)
  }

  function SessionOf(u: StoredUser): User {
    User(u.id, u.name, u.email)
  }

  /** The state after signing `u` in: session set, flag raised, session saved. */
  function SignIn(s: AuthState, u: User): AuthState {
    s.(user := Some(u), isAuthenticated := true, saved := Saved(u))
  }

  /** Index `i` holds the first stored user whose e-mail is exactly `email`. */
  ghost predicate IsFirstMatch(users: seq<StoredUser>, email: string, i: int) {
    && 0 <= i < |users|
    && users[i].email == email
    && forall j :: 0 <= j < i ==> users[j].email != email
  }

  /** `users.find(u => u.email === email)`, as an index. */
  function FindByEmail(users: seq<StoredUser>, email: string): (r: Option<nat>)
    ensures r.Some? ==> IsFirstMatch(users, email, r.value)
    ensures r.None? ==> forall j :: 0 <= j < |users| ==> users[j].email != email
  {
    if |users| == 0 then None
    else if users[0].email == email then Some(0)
    else match FindByEmail(users[1..], email)
      case None => None
      case Some(i) => Some(i + 1)
  }

  /** `login(email, password)`: succeeds when the first user with exactly this
      e-mail has exactly this password, and then signs that user in. */
  function Login(s: AuthState, email: string, password: string): (r: Outcome)
    ensures r.ok <==> exists i :: IsFirstMatch(s.users, email, i) && s.users[i].password == password
    ensures r.ok ==> exists i :: IsFirstMatch(s.users, email, i) && r.state == SignIn(s, SessionOf(s.users[i]))
    ensures !r.ok ==> r.state == s
    ensures r.state.users == s.users
  {
    match FindByEmail(s.users, email)
    case Some(i) =>
      if s.users[i].password == password then Outcome(true, SignIn(s, SessionOf(s.users[i])))
      else Outcome(false, s)
    case None => Outcome(false, s)
  }

  /** The store's own check on registration input: a non-empty name, an
      e-mail containing '@', a password of at least six characters. */
  predicate RegistrationInputOk(name: string, email: string, password: string) {
    name != "" && Includes(email, "@") && |password| >= 6
  }

  /** Some stored e-mail equals `email` ignoring case. */
  predicate EmailTaken(users: seq<StoredUser>, email: string) {
    exists j :: 0 <= j < |users| && Lower(users[j].email) == Lower(email)
  }

  /** The id a user registered at time `now` (milliseconds) receives. */
  function UserId(now: nat): string {
    "user-" + Decimal(now)
  }

  /** `register(name, email, password)` at clock reading `now`, stamping the
      record with `createdAt`: rejects bad input and e-mails already taken
      (ignoring case); otherwise appends the record and signs the user in. */
  function Register(s: AuthState, name: string, email: string, password: string, now: nat, createdAt: string): (r: Outcome)
    ensures !RegistrationInputOk(name, email, password) ==> r == Outcome(false, s)
    ensures EmailTaken(s.users, email) ==> r == Outcome(false, s)
    ensures r.ok <==> RegistrationInputOk(name, email, password) && !EmailTaken(s.users, email)
    ensures r.ok ==>
      && |r.state.users| == |s.users| + 1
      && r.state.users[..|s.users|] == s.users
      && r.state.users[|s.users|] == StoredUser(UserId(now), name, email, password, createdAt)
      && r.state.user == Some(User(UserId(now), name, email))
      && r.state.isAuthenticated
      && r.state.saved == Saved(User(UserId(now), name, email))
  {
    if !RegistrationInputOk(name, email, password) then Outcome(false, s)
    else if EmailTaken(s.users, email) then Outcome(false, s)
    else
      var added := StoredUser(UserId(now), name, email, password, createdAt);
      Outcome(true, SignIn(s.(users := s.users + [added]), SessionOf(added)))
  }

  /** `logout()`: clears the session and its saved copy; the users stay. */
  function Logout(s: AuthState): (r: AuthState)
    ensures r.users == s.users
    ensures r.user.None? && !r.isAuthenticated && r.saved == Absent
    ensures Consistent(r)
  {
    s.(user := None, isAuthenticated := false, saved := Absent)
  }

  /** The initial-load effect exactly as written: any saved text that parses
      as JSON becomes the session user and raises the flag; text that does
      not parse is removed. JSON such as `null` parses, to a falsy user. */
  function RestoreSessionAsWritten(s: AuthState): (r: AuthState)
    ensures r.users == s.users
    ensures s.saved.Absent? ==> r == s
    ensures s.saved.Saved? ==> r.isAuthenticated && r.user == Some(s.saved.user) && r.saved == s.saved
    ensures s.saved.SavedNull? ==> r.isAuthenticated && r.user.None? && r.saved == s.saved
    ensures s.saved.Unparseable? ==> r == s.(saved := Absent)
  {
    match s.saved
    case Absent => s
    case Saved(u) => s.(user := Some(u), isAuthenticated := true)
    case SavedNull => s.(user := None, isAuthenticated := true)
    case Unparseable => s.(saved := Absent)
  }

  /** Restoring a saved falsy value such as `null` signs nobody in yet raises
      `isAuthenticated`. */
  lemma RestoreAsWrittenBreaksInvariant(users: seq<StoredUser>)
    ensures Consistent(Initial(users, SavedNull))
    ensures !Consistent(RestoreSessionAsWritten(Initial(users, SavedNull)))
  {
  }

  /** The initial-load effect with a saved falsy value treated like text that
      does not parse: removed, nobody signed in. */
  function RestoreSession(s: AuthState): (r: AuthState)
    requires Consistent(s)
    ensures Consistent(r)
    ensures r.users == s.users
    ensures s.saved.Saved? ==> r.isAuthenticated && r.user == Some(s.saved.user)
    ensures s.saved.SavedNull? || s.saved.Unparseable? ==> r == s.(saved := Absent)
    ensures s.saved.Absent? ==> r == s
  {
    match s.saved
    case Absent => s
    case Saved(u) => s.(user := Some(u), isAuthenticated := true)
    case SavedNull => s.(saved := Absent)
    case Unparseable => s.(saved := Absent)
  }

  /** The corrected restore agrees with the code as written on every saved
      value except a falsy one. */
  lemma RestoreAgreesExceptNull(s: AuthState)
    requires Consistent(s)
    requires !s.saved.SavedNull?
    ensures RestoreSession(s) == RestoreSessionAsWritten(s)
  {
  }

  /** Every operation keeps the session invariant. */
  lemma OperationsKeepConsistent(s: AuthState, name: string, email: string, password: string, now: nat, createdAt: string)
    requires Consistent(s)
    ensures Consistent(Login(s, email, password).state)
    ensures Consistent(Register(s, name, email, password, now, createdAt).state)
    ensures Consistent(Logout(s))
    ensures Consistent(RestoreSession(s))
  {
  }

  /** Exact equality implies equality ignoring case, so an e-mail that is not
      taken has no exact match either. */
  lemma NotTakenHasNoExactMatch(users: seq<StoredUser>, email: string)
    requires !EmailTaken(users, email)
    ensures forall j :: 0 <= j < |users| ==> users[j].email != email
  {
  }

  /** After a successful registration the same credentials log in, as the
      user just created. */
  lemma RegisterThenLogin(s: AuthState, name: string, email: string, password: string, now: nat, createdAt: string)
    requires Register(s, name, email, password, now, createdAt).ok
    ensures Login(Register(s, name, email, password, now, createdAt).state, email, password).ok
    ensures Login(Register(s, name, email, password, now, createdAt).state, email, password).state.user
         == Some(User(UserId(now), name, email))
  {
    var t := Register(s, name, email, password, now, createdAt).state;
    NotTakenHasNoExactMatch(s.users, email);
    var n := |s.users|;
    assert forall j :: 0 <= j < n ==> t.users[j].email != email by {
      forall j | 0 <= j < n
        ensures t.users[j].email != email
      {
        assert t.users[j] == s.users[j];
      }
    }
    assert IsFirstMatch(t.users, email, n);
    var r := Login(t, email, password);
    var i :| IsFirstMatch(t.users, email, i) && r.state == SignIn(t, SessionOf(t.users[i]));
    assert i == n;
  }
}
