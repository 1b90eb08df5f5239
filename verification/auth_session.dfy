/** The client session (client/src/contexts/AuthContext.jsx): the in-memory state
    `{isAuthenticated, user, isLoading}` kept by `AuthProvider`, its operations
    `checkAuthStatus`, `login` and `logout`, and the storage helpers `isAuthenticated`,
    `getAuthToken`, `getUserData` and `clearAuthData`. Browser `localStorage` is a map
    from keys to strings; React's state setters are collapsed into returning the next
    state. */
module AuthSession {
  import opened JsText
  import opened UserCodec

  /** Origin-scoped `localStorage`. */
  type Storage = map<string, string>

  const TokenKey: string := "token"
  const UserDataKey: string := "userData"

  /** `localStorage.getItem(key)`: `None` is `null`. */
  function GetItem(storage: Storage, key: string): (r: Option<string>)
    ensures r.Some? <==> key in storage
    ensures r.Some? ==> r.value == storage[key]
  {
    if key in storage then Some(storage[key]) else None
  }

  /** The in-memory session state. `user` is `None` for JavaScript `null`. */
  datatype SessionState = SessionState(isAuthenticated: bool, user: Option<UserProfile>, isLoading: bool)

  /** The provider: its storage and its state. */
  datatype Context = Context(storage: Storage, state: SessionState)

  /** The three `useState` initial values. */
  function InitialState(): (s: SessionState)
    ensures !s.isAuthenticated && s.user.None? && s.isLoading
  {
    SessionState(false, None, true)
  }

  /** Both credential keys hold non-empty text (`token && userData`). */
  predicate CredentialsPresent(storage: Storage) {
    TruthyString(GetItem(storage, TokenKey)) && TruthyString(GetItem(storage, UserDataKey))
  }

  /** `checkAuthStatus()`: authenticated exactly when both keys are non-empty and the
      user text parses; then `user` is the parsed value (`null` parses to `null`).
      A parse failure lands in the `catch` branch, unauthenticated. Every branch ends
      with `isLoading` false, and storage is only read. */
  function CheckAuthStatus(ctx: Context): (r: Context)
    ensures r.storage == ctx.storage
    ensures !r.state.isLoading
    ensures r.state.isAuthenticated <==>
              CredentialsPresent(ctx.storage) && Decode(ctx.storage[UserDataKey]).Some?
    ensures !r.state.isAuthenticated ==> r.state.user.None?
    ensures r.state.user.Some? ==>
              r.state.isAuthenticated && Decode(ctx.storage[UserDataKey]) == Some(ProfileValue(r.state.user.value))
    ensures CredentialsPresent(ctx.storage) && IsProfile(Decode(ctx.storage[UserDataKey])) ==>
              r.state.user == Some(Decode(ctx.storage[UserDataKey]).value.profile)
    ensures CredentialsPresent(ctx.storage) && Decode(ctx.storage[UserDataKey]) == Some(NullValue) ==>
              r.state.isAuthenticated && r.state.user.None?
  {
    var token := GetItem(ctx.storage, TokenKey);
    var userData := GetItem(ctx.storage, UserDataKey);
    var next :=
      if TruthyString(token) && TruthyString(userData) then
        match Decode(userData.value)
        case Some(NullValue) => SessionState(true, None, false)
        case Some(ProfileValue(u)) => SessionState(true, Some(u), false)
        case None => SessionState(false, None, false)
      else SessionState(false, None, false);
    Context(ctx.storage, next)
  }

  /** Mounting the provider: initial state, then the `useEffect` runs `checkAuthStatus`. */
  function Mount(storage: Storage): (r: Context)
    ensures r.storage == storage && !r.state.isLoading
    ensures r.state.isAuthenticated <==> CredentialsPresent(storage) && Decode(storage[UserDataKey]).Some?
    ensures CredentialsPresent(storage) && IsProfile(Decode(storage[UserDataKey])) ==>
              r.state.user == Some(Decode(storage[UserDataKey]).value.profile)
    ensures !(CredentialsPresent(storage) && IsProfile(Decode(storage[UserDataKey]))) ==> r.state.user.None?
  {
    CheckAuthStatus(Context(storage, InitialState()))
  }

  /** `login(token, userData)`: writes the token and the serialized user, then sets the
      state authenticated with that user. Other keys and `isLoading` are untouched. */
  function Login(ctx: Context, token: string, user: UserProfile): (r: Context)
    ensures GetItem(r.storage, TokenKey) == Some(token)
    ensures GetItem(r.storage, UserDataKey) == Some(Encode(user))
    ensures forall k :: k != TokenKey && k != UserDataKey ==> GetItem(r.storage, k) == GetItem(ctx.storage, k)
    ensures r.state.isAuthenticated && r.state.user == Some(user)
    ensures r.state.isLoading == ctx.state.isLoading
  {
    Context(ctx.storage[TokenKey := token][UserDataKey := Encode(user)],
            SessionState(true, Some(user), ctx.state.isLoading))
  }

  /** `logout()`: removes exactly the two credential keys and clears the state. */
  function Logout(ctx: Context): (r: Context)
    ensures TokenKey !in r.storage && UserDataKey !in r.storage
    ensures forall k :: k != TokenKey && k != UserDataKey ==> GetItem(r.storage, k) == GetItem(ctx.storage, k)
    ensures !r.state.isAuthenticated && r.state.user.None?
    ensures r.state.isLoading == ctx.state.isLoading
  {
    Context(ctx.storage - {TokenKey, UserDataKey}, SessionState(false, None, ctx.state.isLoading))
  }

  // ---------------------------------------------------------------------------
  // Storage helpers (the `src/utils/auth.js` part of the file)

  /** `isAuthenticated()`: looks at the token only. */
  function TokenPresent(storage: Storage): (r: bool)
    ensures r <==> TokenKey in storage && storage[TokenKey] != ""
  {
    TruthyString(GetItem(storage, TokenKey))
  }

  /** `getAuthToken()`: the stored token, `None` when the key is missing. */
  function GetAuthToken(storage: Storage): (r: Option<string>)
    ensures r.Some? <==> TokenKey in storage
    ensures r.Some? ==> r.value == storage[TokenKey]
  {
    GetItem(storage, TokenKey)
  }

  /** The parse produced a profile object. */
  predicate IsProfile(p: Option<Parsed>) {
    p.Some? && p.value.ProfileValue?
  }

  /** `getUserData()`: the parsed user, `None` (`null`) when the key is missing or
      empty, when its text does not parse, or when it parses to `null`. */
  function GetUserData(storage: Storage): (r: Option<UserProfile>)
    ensures r.Some? ==> UserDataKey in storage && Decode(storage[UserDataKey]) == Some(ProfileValue(r.value))
    ensures r.None? <==> UserDataKey !in storage || !IsProfile(Decode(storage[UserDataKey]))
  {
    var userData := GetItem(storage, UserDataKey);
    if TruthyString(userData) then
      match Decode(userData.value)
      case Some(ProfileValue(u)) => Some(u)
      case _ => None
    else None
  }

  /** `clearAuthData()`: removes the two credential keys. */
  function ClearAuthData(storage: Storage): (r: Storage)
    ensures r.Keys == storage.Keys - {TokenKey, UserDataKey}
    ensures forall k :: k in r ==> r[k] == storage[k]
  {
    storage - {TokenKey, UserDataKey}
  }

  // ---------------------------------------------------------------------------
  // Properties relating several operations

  /** Round trip: after `login(t, u)` a fresh `checkAuthStatus` reads back an
      authenticated state with an equal user, provided the token is non-empty; an
      empty token is falsy and the re-check drops the session. */
  lemma LoginThenCheck(ctx: Context, token: string, user: UserProfile)
    ensures CheckAuthStatus(Login(ctx, token, user)).state ==
              if token != "" then SessionState(true, Some(user), false) else SessionState(false, None, false)
  {
    DecodeEncode(user);
    assert Encode(user) != "";
  }

  /** The round trip as the read-back helpers see it. */
  lemma LoginThenHelpers(ctx: Context, token: string, user: UserProfile)
    ensures GetAuthToken(Login(ctx, token, user).storage) == Some(token)
    ensures GetUserData(Login(ctx, token, user).storage) == Some(user)
  {
    DecodeEncode(user);
  }

  /** `logout()` is idempotent. */
  lemma LogoutIdempotent(ctx: Context)
    ensures Logout(Logout(ctx)) == Logout(ctx)
  {
  }

  /** After `logout()`, whatever the prior state, a re-check is unauthenticated and
      `getUserData()` is `null`. */
  lemma LogoutThenCheck(ctx: Context)
    ensures CheckAuthStatus(Logout(ctx)).state == SessionState(false, None, false)
    ensures GetUserData(Logout(ctx).storage).None?
  {
  }

  /** `clearAuthData()` has exactly the storage effect of `logout()`. */
  lemma ClearAuthDataIsLogoutStorage(ctx: Context)
    ensures ClearAuthData(ctx.storage) == Logout(ctx).storage
  {
  }

  /** An empty store mounts unauthenticated with no user and loading finished. */
  lemma MountEmpty()
    ensures Mount(map[]).state == SessionState(false, None, false)
  {
  }

  /** A token with a user text that does not parse mounts unauthenticated. */
  lemma MountCorruptUserData(storage: Storage)
    requires TokenKey in storage && UserDataKey in storage
    requires Decode(storage[UserDataKey]).None?
    ensures Mount(storage).state == SessionState(false, None, false)
  {
  }

  /** Clearing the keys out of band and re-checking gives the unauthenticated state. */
  lemma ExternalClearThenCheck(ctx: Context)
    ensures CheckAuthStatus(Context(ClearAuthData(ctx.storage), ctx.state)).state == SessionState(false, None, false)
  {
  }
}
