/**
 * The auth slice: a user registry kept in browser storage, the login, signup
 * and initialise operations over it, and the reducers that move the
 * authentication flags.
 */
module AuthSlice {
  import opened Wrappers

  /** A registered user; `password` is a bcrypt hash. */
  datatype User = User(id: string, name: string, email: string, password: Option<string>)

  /** The JSON value stored under a key: the registry, or one user record. */
  datatype Stored = Users(users: seq<User>) | CurrentUser(user: User)

  const UsersKey := "sf_users"
  const CurrentUserKey := "sf_current_user"

  const UserNotFound := "User not found"
  const InvalidPassword := "Invalid password"
  const EmailExists := "Email already exists"

  /** The user without its password, as every operation returns it. */
  function Public(u: User): User {
    User(u.id, u.name, u.email, None)
  }

  predicate EmailsUnique(users: seq<User>) {
    forall i, j :: 0 <= i < j < |users| ==> users[i].email != users[j].email
  }

  /**
   * The two built-in test users; `testHash` and `devHash` are the hashes
   * bcrypt produced for '123456' and 'password' when the module loaded.
   */
  function DefaultTestUsers(testHash: string, devHash: string): seq<User> {
    [ User("1", "Test User", "test@example.com", Some(testHash)),
      User("2", "Dev User", "dev@example.com", Some(devHash)) ]
  }

  /** The registry as `loadUsers` reads it: the saved list, or a copy of the test users. */
  function LoadUsers(storage: map<string, Stored>, testHash: string, devHash: string): seq<User> {
    if UsersKey in storage && storage[UsersKey].Users? then storage[UsersKey].users
    else DefaultTestUsers(testHash, devHash)
  }

  /** `users.find(u => u.email === email)`: the first user with the email. */
  function FindByEmail(users: seq<User>, email: string): (r: Option<User>)
    ensures r.None? <==> forall u :: u in users ==> u.email != email
    ensures r.Some? ==> r.value.email == email
    ensures r.Some? ==> exists i :: (0 <= i < |users| && users[i] == r.value &&
                                     forall j :: 0 <= j < i ==> users[j].email != email)
  {
    if users == [] then None
    else if users[0].email == email then Some(users[0])
    else
      var r := FindByEmail(users[1..], email);
      assert users == [users[0]] + users[1..];
      assert r.Some? ==> exists i :: (0 <= i < |users| && users[i] == r.value &&
                                      forall j :: 0 <= j < i ==> users[j].email != email)
      by {
        if r.Some? {
          var i :| 0 <= i < |users[1..]| && users[1..][i] == r.value
            && forall j :: 0 <= j < i ==> users[1..][j].email != email;
          assert users[i + 1] == r.value;
          forall j | 0 <= j < i + 1 ensures users[j].email != email {
            if j > 0 { assert users[j] == users[1..][j - 1]; }
          }
        }
      }
      r
  }

  /**
   * The `loginUser` thunk against the registry `users`; `matches` is
   * `bcrypt.compare`, and a user without a hash is compared against ''.
   */
  function LoginOutcome(users: seq<User>, email: string, password: string,
                        matches: (string, string) -> bool): (r: Result<User, string>)
    ensures r == Err(UserNotFound) <==> forall u :: u in users ==> u.email != email
    ensures r == Err(InvalidPassword) <==>
      FindByEmail(users, email).Some? && !matches(password, FindByEmail(users, email).value.password.GetOr(""))
    ensures r.Err? ==> r.error == UserNotFound || r.error == InvalidPassword
    ensures r.Ok? ==> exists u :: (u in users && u.email == email && r.value == Public(u) &&
                                   matches(password, u.password.GetOr("")))
    ensures r.Ok? ==> FindByEmail(users, email).Some? && r.value == Public(FindByEmail(users, email).value)
    ensures r.Ok? ==> r.value.password.None?
  {
    match FindByEmail(users, email)
    case None => Err(UserNotFound)
    case Some(u) => if !matches(password, u.password.GetOr("")) then Err(InvalidPassword) else Ok(Public(u))
  }

  /**
   * The registry `signupUser` saves: one new user at the end, or a rejection
   * when the email is taken. `hash` is what bcrypt produced for the password
   * and `newId` is `Date.now().toString()`.
   */
  function SignupOutcome(users: seq<User>, name: string, email: string,
                         hash: string, newId: string): (r: Result<seq<User>, string>)
    ensures r.Err? <==> exists u :: u in users && u.email == email
    ensures r.Err? ==> r.error == EmailExists
    ensures r.Ok? ==> |r.value| == |users| + 1 && r.value[..|users|] == users
    ensures r.Ok? ==> r.value[|users|] == User(newId, name, email, Some(hash))
  {
    if FindByEmail(users, email).Some? then Err(EmailExists)
    else Ok(users + [User(newId, name, email, Some(hash))])
  }

  /** A successful signup keeps the registry's emails unique. */
  lemma SignupKeepsEmailsUnique(users: seq<User>, name: string, email: string, hash: string, newId: string)
    requires EmailsUnique(users)
    requires SignupOutcome(users, name, email, hash, newId).Ok?
    ensures EmailsUnique(SignupOutcome(users, name, email, hash, newId).value)
  {
    var r := SignupOutcome(users, name, email, hash, newId).value;
    forall i, j | 0 <= i < j < |r| ensures r[i].email != r[j].email {
      if j == |users| {
        assert r[i] == users[i] && users[i] in users;
      } else {
        assert r[i] == users[i] && r[j] == users[j];
      }
    }
  }

  /** Logging in right after a signup, with the same email and password, succeeds with the new user. */
  lemma LoginAfterSignup(users: seq<User>, name: string, email: string, password: string,
                         hash: string, newId: string, matches: (string, string) -> bool)
    requires matches(password, hash)
    requires SignupOutcome(users, name, email, hash, newId).Ok?
    ensures LoginOutcome(SignupOutcome(users, name, email, hash, newId).value, email, password, matches)
      == Ok(User(newId, name, email, None))
  {
    var r := SignupOutcome(users, name, email, hash, newId).value;
    var found := FindByEmail(r, email);
    assert r[|users|].email == email;
    assert found.Some?;
    var i :| 0 <= i < |r| && r[i] == found.value && forall j :: 0 <= j < i ==> r[j].email != email;
    assert i == |users|;
  }

  /** On a browser with no saved registry, the test user logs in with '123456'. */
  lemma TestUserLogsInByDefault(storage: map<string, Stored>, testHash: string, devHash: string,
                                matches: (string, string) -> bool)
    requires UsersKey !in storage
    requires matches("123456", testHash)
    ensures LoginOutcome(LoadUsers(storage, testHash, devHash), "test@example.com", "123456", matches)
      == Ok(User("1", "Test User", "test@example.com", None))
  {
    var users := LoadUsers(storage, testHash, devHash);
    assert users[0].email == "test@example.com";
  }

  /** The `initializeAuth` payload: the saved current user without its password, if any. */
  function InitialUser(storage: map<string, Stored>): (r: Option<User>)
    ensures r.Some? <==> CurrentUserKey in storage && storage[CurrentUserKey].CurrentUser?
    ensures r.Some? ==> r.value == Public(storage[CurrentUserKey].user) && r.value.password.None?
  {
    if CurrentUserKey in storage && storage[CurrentUserKey].CurrentUser?
    then Some(Public(storage[CurrentUserKey].user))
    else None
  }

  /** The registry satisfies the invariant and each key holds the kind of value it is written with. */
  predicate WellFormedStorage(storage: map<string, Stored>) {
    && (UsersKey in storage ==> storage[UsersKey].Users? && EmailsUnique(storage[UsersKey].users))
    && (CurrentUserKey in storage ==> storage[CurrentUserKey].CurrentUser?)
  }

  class AuthState {
    var user: Option<User>
    var isAuthenticated: bool
    var loading: bool
    var error: Option<string>
    /** The browser's `localStorage`, with JSON values already parsed. */
    var storage: map<string, Stored>
    /** The bcrypt hashes of the two test users' passwords. */
    const testHash: string
    const devHash: string

    /**
     * A user is present exactly when authenticated, no error is shown while
     * loading, and the registry holds no email twice.
     */
    ghost predicate Valid()
      reads this
    {
      && (isAuthenticated <==> user.Some?)
      && (loading ==> error.None?)
      && WellFormedStorage(storage)
    }

    /** The registry the thunks read. */
    function Registry(): (users: seq<User>)
      reads this
      requires Valid()
      ensures EmailsUnique(users)
    {
      LoadUsers(storage, testHash, devHash)
    }

    /** `initialState`, next to a browser storage left by earlier sessions. */
    constructor (saved: map<string, Stored>, testUserHash: string, devUserHash: string)
      requires WellFormedStorage(saved)
      ensures Valid()
      ensures user == None && !isAuthenticated && !loading && error == None
      ensures storage == saved && testHash == testUserHash && devHash == devUserHash
    {
      user := None;
      isAuthenticated := false;
      loading := false;
      error := None;
      storage := saved;
      testHash := testUserHash;
      devHash := devUserHash;
    }

    /** The `loginUser` thunk: on success the full stored record becomes the current user. */
    method LoginUser(email: string, password: string, matches: (string, string) -> bool)
      returns (r: Result<User, string>)
      requires Valid()
      modifies this
      ensures Valid()
      ensures r == LoginOutcome(old(Registry()), email, password, matches)
      ensures r.Ok? ==> storage == old(storage)[CurrentUserKey := CurrentUser(FindByEmail(old(Registry()), email).value)]
      ensures r.Err? ==> storage == old(storage)
      ensures user == old(user) && isAuthenticated == old(isAuthenticated)
      ensures loading == old(loading) && error == old(error)
    {
      var users := LoadUsers(storage, testHash, devHash);
      var found := FindByEmail(users, email);
      if found.None? {
        return Err(UserNotFound);
      }
      var u := found.value;
      if !matches(password, u.password.GetOr("")) {
        return Err(InvalidPassword);
      }
      storage := storage[CurrentUserKey := CurrentUser(u)];
      r := Ok(Public(u));
    }

    /** The `signupUser` thunk: saves the grown registry and the new user as current. */
    method SignupUser(name: string, email: string, hash: string, newId: string)
      returns (r: Result<User, string>)
      requires Valid()
      modifies this
      ensures Valid()
      ensures r.Err? <==> exists u :: u in old(Registry()) && u.email == email
      ensures r.Err? ==> r.error == EmailExists && storage == old(storage)
      ensures r.Ok? ==> r.value == User(newId, name, email, None)
      ensures r.Ok? ==> storage == old(storage)
        [UsersKey := Users(old(Registry()) + [User(newId, name, email, Some(hash))])]
        [CurrentUserKey := CurrentUser(User(newId, name, email, Some(hash)))]
      ensures user == old(user) && isAuthenticated == old(isAuthenticated)
      ensures loading == old(loading) && error == old(error)
    {
      var users := LoadUsers(storage, testHash, devHash);
      var outcome := SignupOutcome(users, name, email, hash, newId);
      if outcome.Err? {
        return Err(outcome.error);
      }
      SignupKeepsEmailsUnique(users, name, email, hash, newId);
      var newUser := User(newId, name, email, Some(hash));
      assert outcome.value == users + [newUser];
      storage := storage[UsersKey := Users(outcome.value)];
      storage := storage[CurrentUserKey := CurrentUser(newUser)];
      r := Ok(Public(newUser));
    }

    method Logout()
      requires Valid()
      modifies this
      ensures Valid()
      ensures user == None && !isAuthenticated
      ensures storage == old(storage) - {CurrentUserKey}
      ensures loading == old(loading) && error == old(error)
    {
      user := None;
      isAuthenticated := false;
      storage := storage - {CurrentUserKey};
    }

    method ClearError()
      requires Valid()
      modifies this
      ensures Valid()
      ensures error == None
      ensures user == old(user) && isAuthenticated == old(isAuthenticated)
      ensures loading == old(loading) && storage == old(storage)
    {
      error := None;
    }

    /** The `pending` case of login and signup. */
    method Pending()
      requires Valid()
      modifies this
      ensures Valid()
      ensures loading && error == None
      ensures user == old(user) && isAuthenticated == old(isAuthenticated) && storage == old(storage)
    {
      loading := true;
      error := None;
    }

    /** The `fulfilled` case of login and signup. */
    method Fulfilled(payload: User)
      requires Valid()
      modifies this
      ensures Valid()
      ensures !loading && user == Some(payload) && isAuthenticated
      ensures error == old(error) && storage == old(storage)
    {
      loading := false;
      user := Some(payload);
      isAuthenticated := true;
    }

    /** The `rejected` case of login and signup; `payload` is the thunk's rejection value. */
    method Rejected(payload: string)
      requires Valid()
      modifies this
      ensures Valid()
      ensures !loading && error == Some(payload)
      ensures user == old(user) && isAuthenticated == old(isAuthenticated) && storage == old(storage)
    {
      loading := false;
      error := Some(payload);
    }

    /** `initializeAuth.fulfilled`: a null payload changes nothing. */
    method InitializeFulfilled(payload: Option<User>)
      requires Valid()
      modifies this
      ensures Valid()
      ensures payload.None? ==> user == old(user) && isAuthenticated == old(isAuthenticated)
      ensures payload.Some? ==> user == payload && isAuthenticated
      ensures loading == old(loading) && error == old(error) && storage == old(storage)
    {
      if payload.Some? {
        user := payload;
        isAuthenticated := true;
      }
    }

    /** A whole `dispatch(loginUser(...))`: pending, the thunk, then fulfilled or rejected. */
    method DispatchLogin(email: string, password: string, matches: (string, string) -> bool)
      returns (r: Result<User, string>)
      requires Valid()
      modifies this
      ensures Valid()
      ensures r == LoginOutcome(old(Registry()), email, password, matches)
      ensures !loading
      ensures r.Ok? ==> user == Some(r.value) && isAuthenticated && error == None
      ensures r.Err? ==> error == Some(r.error) && user == old(user) && isAuthenticated == old(isAuthenticated)
      ensures r.Ok? ==> storage == old(storage)[CurrentUserKey := CurrentUser(FindByEmail(old(Registry()), email).value)]
      ensures r.Err? ==> storage == old(storage)
    {
      Pending();
      r := LoginUser(email, password, matches);
      if r.Ok? {
        Fulfilled(r.value);
      } else {
        Rejected(r.error);
      }
    }

    /** A whole `dispatch(initializeAuth())`. */
    method DispatchInitialize()
      requires Valid()
      modifies this
      ensures Valid()
      ensures InitialUser(old(storage)).Some? ==> user == InitialUser(old(storage)) && isAuthenticated
      ensures InitialUser(old(storage)).None? ==> user == old(user) && isAuthenticated == old(isAuthenticated)
      ensures storage == old(storage)
      ensures loading == old(loading) && error == old(error)
    {
      InitializeFulfilled(InitialUser(storage));
    }
  }
}
