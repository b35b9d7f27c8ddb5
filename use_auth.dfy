/** The older authentication hook: the same user and loading state as the
    context, restored without any refresh, and a logout that also forgets the
    stored user record. */
module UseAuth {
  import opened Common
  import opened AuthApi
  import opened Roles

  class AuthHook {
    var user: Option<User>
    var loading: bool
    var userData: Option<UserRecord>
    const tokens: TokenStore

    constructor (store: TokenStore, record: Option<UserRecord>)
      ensures user.None? && loading && userData == record && tokens == store
    {
      user, loading, userData := None, true, record;
      tokens := store;
    }

    /** checkAuth: only an unexpired token together with a stored record restores
        a user, and an expired token is never refreshed. A malformed record makes
        the check throw before loading ends, so loading stays on. Nothing in the
        token store or the record changes. */
    method CheckAuth(now: int)
      modifies this
      ensures userData == old(userData)
      ensures tokens.ValidateToken(now) == Valid && userData.Some? && userData.value.UserJson? ==>
        user == Some(userData.value.user) && !loading
      ensures tokens.ValidateToken(now) == Valid && userData == Some(Malformed) ==>
        user == old(user) && loading == old(loading)
      ensures tokens.ValidateToken(now) == Valid && userData.None? ==> user == old(user) && !loading
      ensures tokens.ValidateToken(now) != Valid ==> user == old(user) && !loading
    {
      var token := tokens.GetToken();
      if token.Some? && !tokens.IsTokenExpired(now) {
        match userData
        case None =>
        case Some(UserJson(u)) =>
          user := Some(u);
        case Some(Malformed) =>
          return;
      }
      loading := false;
    }

    /** login: true and a signed-in, persisted user on success; false when the
        token store's login throws, which happens after it stored its tokens. */
    method Login(email: Option<string>, now: int) returns (ok: bool)
      modifies this, tokens
      ensures ok <==> email.Some?
      ensures tokens.accessToken == Some(AccessToken(now)) && tokens.refreshToken == Some(RefreshToken(now))
      ensures tokens.tokenExpiry == Some(now + TokenExpiryTime)
      ensures ok ==> user == Some(UserFor(email.value)) && userData == Some(UserJson(UserFor(email.value)))
      ensures !ok ==> user == old(user) && userData == old(userData)
      ensures loading == old(loading)
    {
      var result := tokens.Login(email, now);
      if result.Ok? {
        user := Some(result.value.user);
        userData := Some(UserJson(result.value.user));
        return true;
      }
      return false;
    }

    /** logout: tokens cleared, no user, and the `userData` key removed. */
    method Logout()
      modifies this, tokens
      ensures tokens.accessToken.None? && tokens.refreshToken.None? && tokens.tokenExpiry.None?
      ensures user.None? && userData.None? && !IsAdmin(user) && !IsStaff(user)
      ensures loading == old(loading)
    {
      tokens.Logout();
      user := None;
      userData := None;
    }
  }

  /** After the hook's logout a fresh check restores nobody and ends loading. */
  method CheckAfterLogout(hook: AuthHook, now: int)
    modifies hook, hook.tokens
    ensures hook.user.None? && !hook.loading && hook.userData.None?
  {
    hook.Logout();
    hook.CheckAuth(now);
  }
}
