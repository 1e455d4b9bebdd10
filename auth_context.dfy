/** The session store of `AuthProvider`: the state `(token, user, isLoading)` and
    its mirror in the browser's key-value storage under the keys `token` and
    `user`. Backend answers (`/auth/login`, `/auth/me`) are parameters. */
module AuthContext {
  import opened Common

  datatype User = User(id: string, name: string, email: string, role: string, tenantId: string)

  /** A value in the key-value storage: plain text, or the JSON text of a user
      (serialising and parsing a user is taken to be an exact round trip). */
  datatype Stored = Text(s: string) | UserJson(u: User)

  /** What `/auth/login` answers: a body that may lack `token` or `user`. */
  datatype LoginResponse = LoginResponse(token: Option<string>, user: Option<User>)

  /** What `/auth/me` answers: a body that may lack `user`. */
  datatype MeResponse = MeResponse(user: Option<User>)

  const TokenKey := "token"
  const UserKey := "user"
  const InvalidLoginResponse := "Invalid login response"

  /** JavaScript truthiness of an optional string. */
  predicate Present(s: Option<string>)
  {
    s.Some? && s.value != ""
  }

  /** `localStorage.getItem('token')`. */
  function StoredToken(storage: map<string, Stored>): Option<string>
  {
    if TokenKey in storage && storage[TokenKey].Text? then Some(storage[TokenKey].s) else None
  }

  /** `storedUser ? JSON.parse(storedUser) : null` for the `user` key. */
  function StoredUser(storage: map<string, Stored>): Option<User>
  {
    if UserKey in storage && storage[UserKey].UserJson? then Some(storage[UserKey].u) else None
  }

  /** Storage that `JSON.parse` can read: the token key holds text, and the user key
      holds user JSON or the empty string (anything else makes the parse throw). */
  predicate Readable(storage: map<string, Stored>)
  {
    && (TokenKey in storage ==> storage[TokenKey].Text?)
    && (UserKey in storage ==> storage[UserKey].UserJson? || storage[UserKey] == Text(""))
  }

  /** `!!token && !!user`. */
  predicate Authenticated(token: Option<string>, user: Option<User>)
  {
    Present(token) && user.Some?
  }

  /** Whether a login answer is accepted: `response.token && response.user`. */
  predicate Accepted(call: Call<LoginResponse>)
  {
    call.Returned? && Present(call.value.token) && call.value.user.Some?
  }

  /** The error that `login` rethrows when the answer is not accepted. */
  function LoginError(call: Call<LoginResponse>): (e: string)
    requires !Accepted(call)
    ensures call.Returned? ==> e == InvalidLoginResponse
    ensures call.Threw? ==> e == call.message
  {
    if call.Threw? then call.message else InvalidLoginResponse
  }

  /** Whether the `verifyUser` effect calls `/auth/me`: `token && !user`. */
  predicate VerifyCalls(token: Option<string>, user: Option<User>)
  {
    Present(token) && user.None?
  }

  class AuthProvider {
    var storage: map<string, Stored>
    var token: Option<string>
    var user: Option<User>
    var isLoading: bool

    /** The state mirrors the storage: what a reload would read back is the state. */
    ghost predicate Valid()
      reads this
    {
      Readable(storage) && token == StoredToken(storage) && user == StoredUser(storage)
    }

    /** `isAuthenticated`. */
    predicate IsAuthenticated()
      reads this
    {
      Authenticated(token, user)
    }

    /** Children are rendered only once loading is over: `!isLoading && children`. */
    predicate RendersChildren()
      reads this
    {
      !isLoading
    }

    /** Initial hydration: both halves are read from storage and loading starts. */
    constructor (stored: map<string, Stored>)
      requires Readable(stored)
      ensures Valid()
      ensures storage == stored
      ensures token == StoredToken(stored) && user == StoredUser(stored)
      ensures isLoading && !RendersChildren()
    {
      storage := stored;
      user := StoredUser(stored);
      token := StoredToken(stored);
      isLoading := true;
    }

    /** `login`: installs token and user in storage and state when the answer has
        both; otherwise rethrows (the call's own error, or "Invalid login response")
        and leaves the session as it was. Loading is over on every path. */
    method Login(call: Call<LoginResponse>) returns (err: Option<string>)
      requires Valid()
      modifies this
      ensures Valid() && !isLoading
      ensures Accepted(call) ==>
        && err.None?
        && token == call.value.token && user == call.value.user
        && storage == old(storage)[TokenKey := Text(call.value.token.value)][UserKey := UserJson(call.value.user.value)]
        && IsAuthenticated()
      ensures !Accepted(call) ==>
        && err == Some(LoginError(call))
        && token == old(token) && user == old(user) && storage == old(storage)
    {
      isLoading := true;
      if Accepted(call) {
        var response := call.value;
        storage := storage[TokenKey := Text(response.token.value)];
        storage := storage[UserKey := UserJson(response.user.value)];
        token := response.token;
        user := response.user;
        err := None;
      } else {
        err := Some(LoginError(call));
      }
      isLoading := false;
    }

    /** `logout`: removes both keys and clears both halves. The new state does not
        depend on the old one, so a second call changes nothing. */
    method Logout()
      requires Valid()
      modifies this`storage, this`token, this`user
      ensures Valid()
      ensures storage == old(storage) - {TokenKey, UserKey}
      ensures token.None? && user.None? && !IsAuthenticated()
    {
      storage := storage - {TokenKey};
      storage := storage - {UserKey};
      token := None;
      user := None;
    }

    /** `updateUser`: replaces the user in state and storage; the token is untouched. */
    method UpdateUser(userData: User)
      requires Valid()
      modifies this`storage, this`user
      ensures Valid()
      ensures user == Some(userData) && storage == old(storage)[UserKey := UserJson(userData)]
      ensures token == old(token)
    {
      user := Some(userData);
      storage := storage[UserKey := UserJson(userData)];
    }

    /** The `verifyUser` effect: only with a token and no user is `/auth/me` called;
        a returned user is installed, a missing user or a thrown call logs out.
        Loading is over on every path. */
    method VerifyUser(call: Call<MeResponse>) returns (called: bool)
      requires Valid()
      modifies this
      ensures Valid() && !isLoading && RendersChildren()
      ensures called == VerifyCalls(old(token), old(user))
      ensures !called ==> storage == old(storage) && token == old(token) && user == old(user)
      ensures called && call.Returned? && call.value.user.Some? ==>
        && user == call.value.user && token == old(token)
        && storage == old(storage)[UserKey := UserJson(call.value.user.value)]
        && IsAuthenticated()
      ensures called && !(call.Returned? && call.value.user.Some?) ==>
        && storage == old(storage) - {TokenKey, UserKey}
        && token.None? && user.None? && !IsAuthenticated()
    {
      called := Present(token) && user.None?;
      if called {
        if call.Returned? && call.value.user.Some? {
          user := call.value.user;
          storage := storage[UserKey := UserJson(call.value.user.value)];
        } else {
          Logout();
        }
      }
      isLoading := false;
    }
  }

  /** `isAuthenticated` holds exactly when storage holds a non-empty token and a
      user, so a reload from storage is authenticated exactly when the page was. */
  lemma AuthenticatedIffStored(p: AuthProvider)
    requires p.Valid()
    ensures p.IsAuthenticated() <==> Present(StoredToken(p.storage)) && StoredUser(p.storage).Some?
  {
  }

  /** Children are hidden from hydration until the token check is over. */
  method ChildrenAfterVerify(stored: map<string, Stored>, call: Call<MeResponse>) returns (before: bool, after: bool)
    requires Readable(stored)
    ensures !before && after
  {
    var p := new AuthProvider(stored);
    before := p.RendersChildren();
    var called := p.VerifyUser(call);
    after := p.RendersChildren();
  }

  /** A successful sign-in with token "abc" and an owner: afterwards the session is
      authenticated and the principal's role is "owner". */
  method SignInScenario() returns (authenticated: bool, role: string)
    ensures authenticated && role == "owner"
  {
    var p := new AuthProvider(map[]);
    var owner := User("1", "Asha", "a@b.com", "owner", "t1");
    var err := p.Login(Returned(LoginResponse(Some("abc"), Some(owner))));
    authenticated := p.IsAuthenticated();
    role := p.user.value.role;
  }

  /** A reload with stored token "abc" and no stored user, where `/auth/me` fails:
      the session ends unauthenticated and the stored token is gone. */
  method ReloadWithRejectedToken() returns (authenticated: bool, tokenStored: bool)
    ensures !authenticated && !tokenStored
  {
    var p := new AuthProvider(map[TokenKey := Text("abc")]);
    var called := p.VerifyUser(Threw("Request failed with status code 401"));
    authenticated := p.IsAuthenticated();
    tokenStored := TokenKey in p.storage;
  }

  /** After a sign-out, a reload from the same storage is unauthenticated. */
  method ReloadAfterLogout(stored: map<string, Stored>) returns (authenticated: bool)
    requires Readable(stored)
    ensures !authenticated
  {
    var p := new AuthProvider(stored);
    p.Logout();
    var q := new AuthProvider(p.storage);
    authenticated := q.IsAuthenticated();
  }
}
