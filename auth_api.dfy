/** The token authority: an access token, a refresh token and the access
    token's expiry, kept under three storage keys, read against a clock. */
module AuthApi {
  import opened Common
  import opened Text

  /** The mock token strings, which embed the clock reading at issue:
      `mock_access_token_<now>`, `mock_access_token_<now>_refreshed`,
      `mock_refresh_token_<now>`. */
  datatype Token = AccessToken(issuedAt: int) | RefreshedAccessToken(issuedAt: int) | RefreshToken(issuedAt: int)

  datatype Role = Admin | Staff

  datatype User = User(id: int, email: string, role: Role, name: string)

  /** The body of a successful login. */
  datatype Session = Session(accessToken: Token, refreshToken: Token, expiresIn: int, user: User)

  datatype Validation = Valid | Invalid(reason: string)

  /** getTokenInfo's answer; `expiresAt` is the expiry instant, which the source
      formats as a locale time string. */
  datatype TokenInfo = TokenInfo(
    hasToken: bool,
    hasRefreshToken: bool,
    isExpired: bool,
    expiresAt: Option<int>,
    timeUntilExpiry: int)

  /** An access token lives for one hour. */
  const TokenExpiryTime: int := 60 * 60 * 1000

  const NoRefreshToken: string := "No refresh token available"

  /** The TypeError `credentials.email.includes(…)` raises when the email is undefined. */
  const UndefinedEmail: string := "Cannot read properties of undefined (reading 'includes')"

  /** The user a login fabricates from its email: admin when the email contains
      "admin", staff otherwise, named by the text before the first '@'. */
  function UserFor(email: string): (u: User)
    ensures u.role == Admin <==> Contains(email, "admin")
    ensures u.email == email && u.id == 1
    ensures '@' !in u.name && |u.name| <= |email| && u.name == email[..|u.name|]
    ensures |u.name| < |email| ==> email[|u.name|] == '@'
  {
    User(1, email, if Contains(email, "admin") then Admin else Staff, BeforeFirst(email, '@'))
  }

  class TokenStore {
    var accessToken: Option<Token>
    var refreshToken: Option<Token>
    var tokenExpiry: Option<int>

    constructor (access: Option<Token>, refresh: Option<Token>, expiry: Option<int>)
      ensures accessToken == access && refreshToken == refresh && tokenExpiry == expiry
    {
      accessToken, refreshToken, tokenExpiry := access, refresh, expiry;
    }

    /** login: always issues both tokens and an expiry one hour ahead, before it
        builds the user, so an undefined email throws with the tokens already stored. */
    method Login(email: Option<string>, now: int) returns (r: Result<Session, string>)
      modifies this
      ensures accessToken == Some(AccessToken(now)) && refreshToken == Some(RefreshToken(now))
      ensures tokenExpiry == Some(now + TokenExpiryTime)
      ensures email.None? ==> r == Err(UndefinedEmail)
      ensures email.Some? ==> r == Ok(Session(AccessToken(now), RefreshToken(now), TokenExpiryTime, UserFor(email.value)))
    {
      accessToken := Some(AccessToken(now));
      refreshToken := Some(RefreshToken(now));
      tokenExpiry := Some(now + TokenExpiryTime);
      if email.None? {
        return Err(UndefinedEmail);
      }
      r := Ok(Session(AccessToken(now), RefreshToken(now), TokenExpiryTime, UserFor(email.value)));
    }

    /** refreshToken: without a refresh token, fail and change nothing; otherwise
        replace the access token and push the expiry one hour ahead, keeping the
        refresh token. */
    method Refresh(now: int) returns (r: Result<Token, string>)
      modifies this
      ensures refreshToken == old(refreshToken)
      ensures old(refreshToken).None? ==>
        r == Err(NoRefreshToken) && accessToken == old(accessToken) && tokenExpiry == old(tokenExpiry)
      ensures old(refreshToken).Some? ==>
        r == Ok(RefreshedAccessToken(now)) && accessToken == Some(r.value) &&
        tokenExpiry == Some(now + TokenExpiryTime)
    {
      if refreshToken.None? {
        return Err(NoRefreshToken);
      }
      accessToken := Some(RefreshedAccessToken(now));
      tokenExpiry := Some(now + TokenExpiryTime);
      r := Ok(RefreshedAccessToken(now));
    }

    /** isTokenExpired: expired when no expiry is stored, or strictly after it. */
    predicate IsTokenExpired(now: int)
      reads this
      ensures tokenExpiry == Some(now) ==> !IsTokenExpired(now)
      ensures tokenExpiry.None? ==> IsTokenExpired(now)
    {
      tokenExpiry.None? || now > tokenExpiry.value
    }

    /** getToken: the stored access token, if any, with no look at its expiry:
        it is missing exactly when validation answers "No token", at any time. */
    function GetToken(): (t: Option<Token>)
      reads this
      ensures t == accessToken
      ensures forall now :: t.None? <==> ValidateToken(now) == Invalid("No token")
    {
      accessToken
    }

    /** logout: remove all three keys; afterwards there is no token and it reads as expired. */
    method Logout()
      modifies this
      ensures accessToken.None? && refreshToken.None? && tokenExpiry.None?
      ensures GetToken().None? && forall now :: IsTokenExpired(now)
    {
      accessToken, refreshToken, tokenExpiry := None, None, None;
    }

    /** validateToken: "No token" takes precedence over "Token expired". */
    function ValidateToken(now: int): (v: Validation)
      reads this
      ensures v == Valid <==> accessToken.Some? && !IsTokenExpired(now)
      ensures accessToken.None? ==> v == Invalid("No token")
      ensures accessToken.Some? && IsTokenExpired(now) ==> v == Invalid("Token expired")
    {
      if accessToken.None? then Invalid("No token")
      else if IsTokenExpired(now) then Invalid("Token expired")
      else Valid
    }

    /** simulateTokenExpiry: put the expiry one second in the past. */
    method SimulateTokenExpiry(now: int)
      modifies this`tokenExpiry
      ensures tokenExpiry == Some(now - 1000)
      ensures forall later :: later >= now ==> IsTokenExpired(later)
    {
      tokenExpiry := Some(now - 1000);
    }

    /** getTokenInfo: a read-only summary of the three keys. */
    function GetTokenInfo(now: int): (info: TokenInfo)
      reads this
      ensures info.hasToken == accessToken.Some? && info.hasRefreshToken == refreshToken.Some?
      ensures info.isExpired == IsTokenExpired(now)
      ensures info.expiresAt == tokenExpiry
      ensures tokenExpiry.Some? ==> info.timeUntilExpiry == tokenExpiry.value - now
      ensures info.timeUntilExpiry > 0 ==> !info.isExpired
      ensures tokenExpiry.None? ==> info.timeUntilExpiry == 0 && info.isExpired
    {
      TokenInfo(accessToken.Some?, refreshToken.Some?, IsTokenExpired(now), tokenExpiry,
                if tokenExpiry.Some? then tokenExpiry.value - now else 0)
    }
  }

  /** A fresh login is valid for exactly one hour: at its last millisecond the
      token still validates, one millisecond later it reads as expired. */
  method LoginLastsOneHour(store: TokenStore, email: string, now: int) returns (atEnd: Validation, after: Validation)
    modifies store
    ensures atEnd == Valid && after == Invalid("Token expired")
  {
    var _ := store.Login(Some(email), now);
    atEnd := store.ValidateToken(now + TokenExpiryTime);
    after := store.ValidateToken(now + TokenExpiryTime + 1);
  }
}
