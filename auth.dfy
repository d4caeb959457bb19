/**
 * Authentication (`src/contexts/AuthContext.tsx`): the auth reducer and its
 * initial state, the role check, the token store over the browser's local and
 * session storage, and the mock `login`/`signup` rules of the provider.
 *
 * The clock enters as parameters: `now` is an ISO-8601 time stamp and `millis`
 * the decimal text of `Date.now()`. The simulated network delays are left out;
 * each operation is modelled by the state it settles in.
 */
module AuthContext {
  import opened Wrappers
  import opened Strings
  import opened Types

  datatype AuthState = AuthState(
    user: Option<User>,
    token: Option<string>,
    isAuthenticated: bool,
    isLoading: bool,
    error: Option<string>)

  datatype AuthAction =
    | LoginStart
    | LoginSuccess(user: User, token: string)
    | LoginError(message: string)
    | Logout
    | UpdateUser(patch: UserPatch)
    | SetLoading(loading: bool)
    | ClearError
    | UnknownAuthAction

  const InitialState: AuthState := AuthState(None, None, false, false, None)

  /** `{ ...user, ...patch }`: a field the patch carries replaces the user's. */
  function Merge(u: User, p: UserPatch): (r: User)
    ensures r.id == p.id.GetOr(u.id) && r.email == p.email.GetOr(u.email)
    ensures r.username == p.username.GetOr(u.username)
    ensures r.firstName == p.firstName.GetOr(u.firstName) && r.lastName == p.lastName.GetOr(u.lastName)
    ensures r.role == p.role.GetOr(u.role) && r.avatar == p.avatar.GetOr(u.avatar)
    ensures r.createdAt == p.createdAt.GetOr(u.createdAt) && r.lastLogin == p.lastLogin.GetOr(u.lastLogin)
    ensures r.isVerified == p.isVerified.GetOr(u.isVerified)
  {
    User(p.id.GetOr(u.id), p.email.GetOr(u.email), p.username.GetOr(u.username),
         p.firstName.GetOr(u.firstName), p.lastName.GetOr(u.lastName), p.role.GetOr(u.role),
         p.avatar.GetOr(u.avatar), p.createdAt.GetOr(u.createdAt), p.lastLogin.GetOr(u.lastLogin),
         p.isVerified.GetOr(u.isVerified))
  }

  const EmptyPatch: UserPatch := UserPatch(None, None, None, None, None, None, None, None, None, None)

  lemma MergeEmpty(u: User)
    ensures Merge(u, EmptyPatch) == u
  {
  }

  /** `authReducer`. */
  function Reduce(s: AuthState, a: AuthAction): (r: AuthState)
    ensures a.LoginSuccess? ==> r.user == Some(a.user) && r.token == Some(a.token) && r.isAuthenticated && !r.isLoading && r.error == None
    ensures a.LoginError? || a.Logout? ==> r.user == None && r.token == None && !r.isAuthenticated && !r.isLoading
    ensures a.LoginStart? || a.SetLoading? || a.ClearError? || a.UnknownAuthAction? ==>
      r.user == s.user && r.token == s.token && r.isAuthenticated == s.isAuthenticated
    ensures a.UpdateUser? ==>
      r.token == s.token && r.isAuthenticated == s.isAuthenticated && r.isLoading == s.isLoading &&
      r.error == s.error && r.user.Some? == s.user.Some?
  {
    match a
    case LoginStart => s.(isLoading := true, error := None)
    case LoginSuccess(u, t) => s.(user := Some(u), token := Some(t), isAuthenticated := true, isLoading := false, error := None)
    case LoginError(m) => s.(user := None, token := None, isAuthenticated := false, isLoading := false, error := Some(m))
    case Logout => s.(user := None, token := None, isAuthenticated := false, isLoading := false, error := None)
    case UpdateUser(p) => s.(user := if s.user.Some? then Some(Merge(s.user.value, p)) else None)
    case SetLoading(b) => s.(isLoading := b)
    case ClearError => s.(error := None)
    case UnknownAuthAction => s
  }

  /** Authenticated, a user and a token go together. */
  predicate Consistent(s: AuthState)
  {
    (s.isAuthenticated <==> s.user.Some?) && (s.user.Some? <==> s.token.Some?)
  }

  function ReduceAll(s: AuthState, actions: seq<AuthAction>): AuthState
    decreases |actions|
  {
    if actions == [] then s else ReduceAll(Reduce(s, actions[0]), actions[1..])
  }

  lemma ReducePreservesConsistent(s: AuthState, a: AuthAction)
    requires Consistent(s)
    ensures Consistent(Reduce(s, a))
  {
  }

  /** Every state the reducer reaches from the initial state is consistent. */
  lemma {:induction false} ReachableConsistent(s: AuthState, actions: seq<AuthAction>)
    requires Consistent(s)
    ensures Consistent(ReduceAll(s, actions))
    decreases |actions|
  {
    if actions != [] {
      ReducePreservesConsistent(s, actions[0]);
      ReachableConsistent(Reduce(s, actions[0]), actions[1..]);
    }
  }

  lemma InitialConsistent(actions: seq<AuthAction>)
    ensures Consistent(ReduceAll(InitialState, actions))
  {
    ReachableConsistent(InitialState, actions);
  }

  /** What each action does to the fields it names, and that it leaves the others alone. */
  lemma ReducerActions(s: AuthState, m: string, p: UserPatch)
    ensures var r := Reduce(s, LoginStart); r.isLoading && r.error == None && r.user == s.user && r.token == s.token && r.isAuthenticated == s.isAuthenticated
    ensures var r := Reduce(s, LoginError(m)); r.user == None && r.token == None && !r.isAuthenticated && !r.isLoading && r.error == Some(m)
    ensures var r := Reduce(s, Logout); r.user == None && r.token == None && !r.isAuthenticated && !r.isLoading && r.error == None
    ensures s.user == None ==> Reduce(s, UpdateUser(p)) == s
    ensures Reduce(s, UnknownAuthAction) == s
  {
  }

  /** `hasRole(role)`: no user has no role; an admin has every role; anyone else only their own. */
  function RoleGranted(user: Option<User>, role: Role): (r: bool)
    ensures r ==> user.Some?
    ensures r && role == Admin ==> user.value.role == Admin
    ensures user.Some? && user.value.role in {Admin, role} ==> r
  {
    user.Some? && (user.value.role == Admin || user.value.role == role)
  }

  lemma RoleGrantedFacts(user: Option<User>, role: Role)
    ensures user.None? ==> !RoleGranted(user, role)
    ensures user.Some? && user.value.role == Admin ==> RoleGranted(user, role)
    ensures user.Some? && user.value.role != Admin ==> (RoleGranted(user, role) <==> user.value.role == role)
    ensures RoleGranted(user, Admin) <==> user.Some? && user.value.role == Admin
  {
  }

  // ----- the token store -------------------------------------------------

  const TokenKey: string := "auth_token"
  const SessionKey: string := "auth_session"
  const UserDataKey: string := "user_data"
  const SessionActive: string := "active"

  /** A stored string: plain text, or the JSON text of a user record. */
  datatype Stored = Text(text: string) | UserJson(user: User)

  /** `TokenStorage` over `localStorage` and `sessionStorage`. */
  class TokenStorage {
    var local: map<string, Stored>
    var session: map<string, Stored>

    constructor (local: map<string, Stored>, session: map<string, Stored>)
      ensures this.local == local && this.session == session
    {
      this.local := local;
      this.session := session;
    }

    method SetToken(token: string)
      modifies this
      ensures local == old(local)[TokenKey := Text(token)]
      ensures session == old(session)[SessionKey := Text(SessionActive)]
    {
      local := local[TokenKey := Text(token)];
      session := session[SessionKey := Text(SessionActive)];
    }

    /** The stored token, and only while the session marker reads `active`. */
    function GetToken(): (r: Option<string>)
      reads this
      ensures r.Some? <==> SessionKey in session && session[SessionKey] == Text(SessionActive) &&
                           TokenKey in local && local[TokenKey].Text?
      ensures r.Some? ==> local[TokenKey] == Text(r.value)
    {
      if SessionKey in session && session[SessionKey] == Text(SessionActive) &&
         TokenKey in local && local[TokenKey].Text?
      then Some(local[TokenKey].text)
      else None
    }

    method RemoveToken()
      modifies this
      ensures local == old(local) - {TokenKey, UserDataKey}
      ensures session == old(session) - {SessionKey}
      ensures GetToken() == None && GetUserData() == None
    {
      local := local - {TokenKey} - {UserDataKey};
      session := session - {SessionKey};
    }

    method SetUserData(user: User)
      modifies this
      ensures local == old(local)[UserDataKey := UserJson(user)]
      ensures session == old(session)
      ensures GetUserData() == Some(user)
    {
      local := local[UserDataKey := UserJson(user)];
    }

    /** The stored user, or none when the entry is missing or does not parse as one. */
    function GetUserData(): (r: Option<User>)
      reads this
      ensures r.Some? <==> UserDataKey in local && local[UserDataKey].UserJson?
      ensures r.Some? ==> local[UserDataKey] == UserJson(r.value)
    {
      if UserDataKey in local && local[UserDataKey].UserJson? then Some(local[UserDataKey].user) else None
    }
  }

  // ----- the mock authentication rules -------------------------------------

  const AvatarBase: string := "https://api.dicebear.com/7.x/avataaars/svg?seed="

  /** The outcome of the mock `login`: the user and token it stores, or the error message. */
  function MockLogin(email: string, password: string, now: string, millis: string): (r: Result<(User, string), string>)
    ensures r.Err? <==> email == [] || password == []
    ensures r.Err? ==> r.error == "Invalid credentials"
    ensures r.Ok? ==> var u := r.value.0;
      u.email == email && u.username == Before(email, '@') && u.isVerified &&
      (u.role == Admin <==> Contains(email, "admin")) && (u.role != Admin ==> u.role == Trader) &&
      u.lastLogin == Some(now) && u.createdAt == now
    ensures r.Ok? ==> r.value.1 == "mock_token_" + millis
  {
    if email != [] && password != [] then
      var u := User("1", email, Before(email, '@'), "John", "Doe",
                    if Contains(email, "admin") then Admin else Trader,
                    Some(AvatarBase + email), now, Some(now), true);
      Ok((u, "mock_token_" + millis))
    else
      Err("Invalid credentials")
  }

  datatype SignupData = SignupData(
    email: string,
    password: string,
    confirmPassword: string,
    username: string,
    firstName: string,
    lastName: string,
    acceptTerms: bool)

  /** The outcome of the mock `signup`: mismatched passwords are reported before unaccepted terms. */
  function MockSignup(data: SignupData, now: string, millis: string): (r: Result<(User, string), string>)
    ensures data.password != data.confirmPassword ==> r == Err("Passwords do not match")
    ensures data.password == data.confirmPassword && !data.acceptTerms ==> r == Err("You must accept the terms of service")
    ensures r.Ok? <==> data.password == data.confirmPassword && data.acceptTerms
    ensures r.Ok? ==> var u := r.value.0;
      u.role == Trader && !u.isVerified && u.email == data.email && u.username == data.username &&
      u.firstName == data.firstName && u.lastName == data.lastName && u.lastLogin == None
    ensures r.Ok? ==> r.value.1 == "mock_token_" + millis
  {
    if data.password != data.confirmPassword then Err("Passwords do not match")
    else if !data.acceptTerms then Err("You must accept the terms of service")
    else
      var u := User("user_" + millis, data.email, data.username, data.firstName, data.lastName, Trader,
                    Some(AvatarBase + data.email), now, None, false);
      Ok((u, "mock_token_" + millis))
  }

  /** `AuthProvider`: the reducer's state and the token store it writes through. */
  class AuthProvider {
    var state: AuthState
    const storage: TokenStorage

    ghost predicate Valid()
      reads this
    {
      Consistent(state)
    }

    constructor (storage: TokenStorage)
      ensures Valid() && state == InitialState && this.storage == storage
    {
      state := InitialState;
      this.storage := storage;
    }

    /** The mount effect: a stored, non-empty token together with a stored user logs in. */
    method Initialize()
      requires Valid()
      modifies this`state
      ensures Valid()
      ensures var t, u := storage.GetToken(), storage.GetUserData();
        state == if t.Some? && t.value != [] && u.Some? then Reduce(old(state), LoginSuccess(u.value, t.value)) else old(state)
    {
      var t := storage.GetToken();
      var u := storage.GetUserData();
      if t.Some? && t.value != [] && u.Some? {
        state := Reduce(state, LoginSuccess(u.value, t.value));
      }
    }

    method Login(email: string, password: string, now: string, millis: string) returns (ok: bool)
      requires Valid()
      modifies this`state, storage
      ensures Valid()
      ensures ok <==> email != [] && password != []
      ensures var started := Reduce(old(state), LoginStart);
        match MockLogin(email, password, now, millis)
        case Ok((u, t)) => state == Reduce(started, LoginSuccess(u, t)) &&
                           storage.local == old(storage.local)[TokenKey := Text(t)][UserDataKey := UserJson(u)] &&
                           storage.session == old(storage.session)[SessionKey := Text(SessionActive)] &&
                           storage.GetToken() == Some(t) && storage.GetUserData() == Some(u)
        case Err(m) => state == Reduce(started, LoginError(m)) &&
                       storage.local == old(storage.local) && storage.session == old(storage.session)
    {
      state := Reduce(state, LoginStart);
      match MockLogin(email, password, now, millis)
      case Ok((u, t)) =>
        storage.SetToken(t);
        storage.SetUserData(u);
        state := Reduce(state, LoginSuccess(u, t));
        ok := true;
      case Err(m) =>
        state := Reduce(state, LoginError(m));
        ok := false;
    }

    method Signup(data: SignupData, now: string, millis: string) returns (ok: bool)
      requires Valid()
      modifies this`state, storage
      ensures Valid()
      ensures ok <==> data.password == data.confirmPassword && data.acceptTerms
      ensures var started := Reduce(old(state), LoginStart);
        match MockSignup(data, now, millis)
        case Ok((u, t)) => state == Reduce(started, LoginSuccess(u, t)) &&
                           storage.local == old(storage.local)[TokenKey := Text(t)][UserDataKey := UserJson(u)] &&
                           storage.session == old(storage.session)[SessionKey := Text(SessionActive)] &&
                           storage.GetToken() == Some(t) && storage.GetUserData() == Some(u)
        case Err(m) => state == Reduce(started, LoginError(m)) &&
                       storage.local == old(storage.local) && storage.session == old(storage.session)
    {
      state := Reduce(state, LoginStart);
      match MockSignup(data, now, millis)
      case Ok((u, t)) =>
        storage.SetToken(t);
        storage.SetUserData(u);
        state := Reduce(state, LoginSuccess(u, t));
        ok := true;
      case Err(m) =>
        state := Reduce(state, LoginError(m));
        ok := false;
    }

    method Logout()
      requires Valid()
      modifies this`state, storage
      ensures Valid()
      ensures state == Reduce(old(state), AuthAction.Logout)
      ensures storage.local == old(storage.local) - {TokenKey, UserDataKey}
      ensures storage.session == old(storage.session) - {SessionKey}
      ensures storage.GetToken() == None && storage.GetUserData() == None
    {
      storage.RemoveToken();
      state := Reduce(state, AuthAction.Logout);
    }

    /** `updateUser`: with a user, the merged record is stored and the patch dispatched; without one, nothing. */
    method UpdateUser(patch: UserPatch)
      requires Valid()
      modifies this`state, storage
      ensures Valid()
      ensures storage.session == old(storage.session)
      ensures old(state.user).None? ==> state == old(state) && storage.local == old(storage.local)
      ensures old(state.user).Some? ==>
        state == Reduce(old(state), AuthAction.UpdateUser(patch)) &&
        state.user == Some(Merge(old(state.user).value, patch)) &&
        storage.local == old(storage.local)[UserDataKey := UserJson(Merge(old(state.user).value, patch))] &&
        storage.GetUserData() == state.user
    {
      if state.user.Some? {
        storage.SetUserData(Merge(state.user.value, patch));
        state := Reduce(state, AuthAction.UpdateUser(patch));
      }
    }

    function HasRole(role: Role): (r: bool)
      reads this
      ensures r ==> state.user.Some?
      ensures state.user.Some? && state.user.value.role == Admin ==> r
      ensures state.user.Some? && state.user.value.role != Admin ==> (r <==> state.user.value.role == role)
    {
      RoleGranted(state.user, role)
    }

    /** `refreshToken`: replaces a present, non-empty token; without one it reports failure. */
    method RefreshToken(millis: string) returns (ok: bool)
      requires Valid()
      modifies storage
      ensures var t := old(storage.GetToken()); ok <==> t.Some? && t.value != []
      ensures ok ==> storage.local == old(storage.local)[TokenKey := Text("refreshed_token_" + millis)]
      ensures ok ==> storage.session == old(storage.session)[SessionKey := Text(SessionActive)]
      ensures ok ==> storage.GetToken() == Some("refreshed_token_" + millis) && storage.GetUserData() == old(storage.GetUserData())
      ensures !ok ==> storage.local == old(storage.local) && storage.session == old(storage.session)
    {
      var t := storage.GetToken();
      if t.None? || t.value == [] {
        return false;
      }
      storage.SetToken("refreshed_token_" + millis);
      ok := true;
    }
  }
}
