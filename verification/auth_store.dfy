/** The authentication session store: who is signed in and what happened
    during the last sign-in attempt. Sign-in checks the e-mail against the
    demo user list (exact, case-sensitive comparison; the first match wins)
    and the password against one password shared by every demo account. */
module Auth {
  import opened Common
  import opened Records

  /** The one password every demo account accepts. */
  const DemoPassword: string := "Demo@12345!"

  const UserNotFoundMessage: string := "User not found. Please check your email."
  const InvalidPasswordMessage: string := "Invalid password. Try \"Demo@12345!\""

  function EmailIs(email: string): User -> bool
  {
    (u: User) => u.email == email
  }

  /** `mockUsers.find((u) => u.email === email)`: the first user whose e-mail
      is exactly `email`. */
  function FindByEmail(users: seq<User>, email: string): (r: Option<User>)
    ensures r.None? <==> forall u :: u in users ==> u.email != email
    ensures r.Some? ==> exists i :: IsFirst(users, EmailIs(email), i) && users[i] == r.value
  {
    match FirstIndex(users, EmailIs(email))
    case None => None
    case Some(i) => Some(users[i])
  }

  /** The three outcomes of a sign-in attempt that runs to its end. */
  datatype LoginOutcome = UserNotFound | InvalidPassword | LoggedIn(user: User)

  /** The decision taken by `login` once its simulated delay is over: the
      e-mail is looked up first, and the password is checked only for a
      known e-mail. */
  function Authenticate(users: seq<User>, email: string, password: string): (r: LoginOutcome)
    ensures r == UserNotFound <==> forall u :: u in users ==> u.email != email
    ensures r == InvalidPassword <==>
              (exists u :: u in users && u.email == email) && password != DemoPassword
    ensures r.LoggedIn? ==>
              password == DemoPassword &&
              exists i :: IsFirst(users, EmailIs(email), i) && users[i] == r.user
  {
    match FindByEmail(users, email)
    case None => UserNotFound
    case Some(u) =>
      if password != DemoPassword then InvalidPassword else LoggedIn(u)
  }

  /** A snapshot of the store's four fields. */
  datatype AuthState = AuthState(
    user: Option<User>,
    isAuthenticated: bool,
    isLoading: bool,
    error: Option<string>)

  /** The invariant every operation keeps: signed in exactly when a user is set. */
  predicate Consistent(s: AuthState)
  {
    s.isAuthenticated <==> s.user.Some?
  }

  const InitialState: AuthState := AuthState(None, false, false, None)

  /** The state `login` settles in for a given outcome. */
  function Settle(s: AuthState, outcome: LoginOutcome): (r: AuthState)
    ensures !r.isLoading
    ensures outcome.LoggedIn? ==>
              r.user == Some(outcome.user) && r.isAuthenticated && r.error == None
    ensures outcome == UserNotFound ==>
              r.user == s.user && r.isAuthenticated == s.isAuthenticated &&
              r.error == Some(UserNotFoundMessage)
    ensures outcome == InvalidPassword ==>
              r.user == s.user && r.isAuthenticated == s.isAuthenticated &&
              r.error == Some(InvalidPasswordMessage)
    ensures Consistent(s) || outcome.LoggedIn? ==> Consistent(r)
  {
    match outcome
    case UserNotFound => s.(isLoading := false, error := Some(UserNotFoundMessage))
    case InvalidPassword => s.(isLoading := false, error := Some(InvalidPasswordMessage))
    case LoggedIn(u) => s.(user := Some(u), isAuthenticated := true, isLoading := false, error := None)
  }

  /** The part of the state written to browser storage ('auth-store'). */
  datatype PersistedAuth = PersistedAuth(user: Option<User>, isAuthenticated: bool)

  /** The state of a freshly created store: the saved record, when there is
      one, merged over the initial state, so nothing is loading and there is
      no error. */
  function Rehydrate(saved: Option<PersistedAuth>): (r: AuthState)
    ensures !r.isLoading && r.error == None
    ensures saved.None? ==> r == InitialState
    ensures saved.Some? ==> r.user == saved.value.user && r.isAuthenticated == saved.value.isAuthenticated
  {
    match saved
    case None => InitialState
    case Some(p) => InitialState.(user := p.user, isAuthenticated := p.isAuthenticated)
  }

  /** `partialize`: what is saved is enough to restore the signed-in user and
      flag, and nothing else survives a reload. */
  function Partialize(s: AuthState): (r: PersistedAuth)
    ensures Rehydrate(Some(r)) == s.(isLoading := false, error := None)
  {
    PersistedAuth(s.user, s.isAuthenticated)
  }

  /** Saving and reloading gives back the signed-in user and flag exactly,
      with no sign-in in flight and no error; a missing record reloads as the
      initial state. */
  lemma PersistRoundTrip(s: AuthState)
    ensures Partialize(Rehydrate(Some(Partialize(s)))) == Partialize(s)
    ensures Rehydrate(Some(Partialize(s))) == s.(isLoading := false, error := None)
    ensures Consistent(s) ==> Consistent(Rehydrate(Some(Partialize(s))))
    ensures Rehydrate(None) == InitialState && Consistent(InitialState)
  {
  }

  /** After a successful sign-in the saved record holds the matched user and
      the signed-in flag. */
  lemma PersistAfterLogin(s: AuthState, users: seq<User>, email: string, password: string)
    requires Authenticate(users, email, password).LoggedIn?
    ensures Partialize(Settle(s, Authenticate(users, email, password))) ==
            PersistedAuth(Some(Authenticate(users, email, password).user), true)
  {
  }

  class AuthStore {
    /** The demo user list the store signs in against. */
    const users: seq<User>
    var user: Option<User>
    var isAuthenticated: bool
    var isLoading: bool
    var error: Option<string>

    function State(): AuthState
      reads this
    {
      AuthState(user, isAuthenticated, isLoading, error)
    }

    ghost predicate Valid()
      reads this
    {
      Consistent(State())
    }

    /** Creating the store and restoring what browser storage saved. */
    constructor (users: seq<User>, saved: Option<PersistedAuth>)
      ensures this.users == users
      ensures State() == Rehydrate(saved)
      ensures saved == None ==> Valid()
    {
      this.users := users;
      match saved {
        case None =>
          user, isAuthenticated := None, false;
        case Some(p) =>
          user, isAuthenticated := p.user, p.isAuthenticated;
      }
      isLoading, error := false, None;
    }

    /** The first step of `login`: loading on, error cleared. */
    method BeginLogin()
      modifies this
      ensures State() == old(State()).(isLoading := true, error := None)
      ensures old(Valid()) ==> Valid()
    {
      isLoading := true;
      error := None;
    }

    /** The second step of `login`, after the simulated delay. */
    method CompleteLogin(email: string, password: string)
      modifies this
      ensures State() == Settle(old(State()), Authenticate(users, email, password))
      ensures !isLoading
      ensures old(Valid()) ==> Valid()
    {
      var u := FindByEmail(users, email);
      if u.None? {
        isLoading := false;
        error := Some(UserNotFoundMessage);
        return;
      }
      if password != DemoPassword {
        isLoading := false;
        error := Some(InvalidPasswordMessage);
        return;
      }
      user := u;
      isAuthenticated := true;
      isLoading := false;
      error := None;
    }

    /** `login`, run to its end. */
    method Login(email: string, password: string)
      modifies this
      ensures State() == Settle(old(State()), Authenticate(users, email, password))
      ensures !isLoading
      ensures old(Valid()) ==> Valid()
    {
      BeginLogin();
      CompleteLogin(email, password);
    }

    method Logout()
      modifies this
      ensures user == None && !isAuthenticated && error == None
      ensures isLoading == old(isLoading)
      ensures Valid()
    {
      user := None;
      isAuthenticated := false;
      error := None;
    }

    /** Direct assignment of the user, for restoring a session. */
    method SetUser(u: Option<User>)
      modifies this
      ensures user == u && isAuthenticated == u.Some?
      ensures isLoading == old(isLoading) && error == old(error)
      ensures Valid()
    {
      user := u;
      isAuthenticated := u.Some?;
    }

    method SetError(e: Option<string>)
      modifies this
      ensures State() == old(State()).(error := e)
      ensures Valid() == old(Valid())
    {
      error := e;
    }

    method ClearError()
      modifies this
      ensures State() == old(State()).(error := None)
      ensures old(error) == None ==> State() == old(State())
      ensures Valid() == old(Valid())
    {
      error := None;
    }
  }
}
