/** The authentication context: the signed-in user, a loading flag and the last
    error, restored at start-up from the token store and the `userData` key. */
module AuthProvider {
  import opened Common
  import opened AuthApi
  import opened Roles

  /** The answer of the context's login. */
  datatype LoginReply = LoginReply(success: bool, error: Option<string>)

  class AuthContext {
    var user: Option<User>
    var loading: bool
    var error: Option<string>
    var userData: Option<UserRecord>
    const tokens: TokenStore

    /** The provider mounts with no user, loading, and no error. */
    constructor (store: TokenStore, record: Option<UserRecord>)
      ensures user.None? && loading && error.None?
      ensures userData == record && tokens == store
    {
      user, loading, error, userData := None, true, None, record;
      tokens := store;
    }

    /** initializeAuth. An unexpired token restores the stored user; an expired
        one is refreshed once and then restores the stored user; a failed
        refresh, a missing token, or a malformed record read in the refresh
        branch log out and leave no user. A malformed record read with an
        unexpired token reaches the outer handler, which also records the error.
        Loading ends on every path, and a restored user always holds a token
        that validates now. */
    method InitializeAuth(now: int)
      modifies this, tokens
      ensures !loading
      ensures user.Some? ==> tokens.ValidateToken(now) == Valid
      ensures userData == old(userData)
      ensures old(tokens.accessToken).Some? && !old(tokens.IsTokenExpired(now)) ==>
        match old(userData)
        case None => user == old(user) && error == old(error) && unchanged(tokens)
        case Some(UserJson(u)) => user == Some(u) && error == old(error) && unchanged(tokens)
        case Some(Malformed) =>
          && user.None? && error == Some(MalformedUserData)
          && tokens.accessToken.None? && tokens.refreshToken.None? && tokens.tokenExpiry.None?
      ensures old(tokens.accessToken).Some? && old(tokens.IsTokenExpired(now)) ==>
        error == old(error) &&
        if old(tokens.refreshToken).None? || old(userData) == Some(Malformed) then
          user.None? && tokens.accessToken.None? && tokens.refreshToken.None? && tokens.tokenExpiry.None?
        else
          && tokens.accessToken == Some(RefreshedAccessToken(now))
          && tokens.tokenExpiry == Some(now + TokenExpiryTime)
          && tokens.refreshToken == old(tokens.refreshToken)
          && user == (if old(userData).Some? then Some(old(userData).value.user) else old(user))
      ensures old(tokens.accessToken).None? ==>
        && user.None? && error == old(error)
        && tokens.accessToken.None? && tokens.refreshToken.None? && tokens.tokenExpiry.None?
    {
      var token := tokens.GetToken();
      if token.Some? && !tokens.IsTokenExpired(now) {
        match userData
        case None =>
        case Some(UserJson(u)) =>
          user := Some(u);
        case Some(Malformed) =>
          error := Some(MalformedUserData);
          tokens.Logout();
          user := None;
      } else if token.Some? && tokens.IsTokenExpired(now) {
        var r := tokens.Refresh(now);
        if r.Err? || userData == Some(Malformed) {
          tokens.Logout();
          user := None;
        } else if userData.Some? {
          user := Some(userData.value.user);
        }
      } else {
        tokens.Logout();
        user := None;
      }
      loading := false;
    }

    /** login: on success the user is signed in and persisted under `userData`;
        a login that throws answers the error message and records it. The token
        store's login has run either way, so its tokens are stored in both cases. */
    method Login(email: Option<string>, now: int) returns (r: LoginReply)
      modifies this, tokens
      ensures !loading
      ensures tokens.accessToken == Some(AccessToken(now)) && tokens.refreshToken == Some(RefreshToken(now))
      ensures tokens.tokenExpiry == Some(now + TokenExpiryTime)
      ensures email.Some? ==>
        && r == LoginReply(true, None) && error.None?
        && user == Some(UserFor(email.value)) && userData == Some(UserJson(UserFor(email.value)))
      ensures email.None? ==>
        && r == LoginReply(false, Some(UndefinedEmail)) && error == Some(UndefinedEmail)
        && user == old(user) && userData == old(userData)
    {
      loading := true;
      error := None;
      var response := tokens.Login(email, now);
      if response.Ok? {
        user := Some(response.value.user);
        userData := Some(UserJson(response.value.user));
        r := LoginReply(true, None);
      } else {
        error := Some(response.error);
        r := LoginReply(false, Some(response.error));
      }
      loading := false;
    }

    /** logout: tokens, user and error are cleared; the `userData` key stays. */
    method Logout()
      modifies this, tokens
      ensures tokens.accessToken.None? && tokens.refreshToken.None? && tokens.tokenExpiry.None?
      ensures user.None? && error.None? && !IsStaff(user)
      ensures userData == old(userData) && loading == old(loading)
    {
      tokens.Logout();
      user := None;
      error := None;
    }
  }

  /** A start-up after logout finds no token and restores nobody, even though
      the user record is still stored. */
  method RestartAfterLogout(ctx: AuthContext, now: int)
    modifies ctx, ctx.tokens
    ensures ctx.user.None? && !ctx.loading
    ensures ctx.userData == old(ctx.userData)
  {
    ctx.Logout();
    ctx.InitializeAuth(now);
  }
}
