/** Token acceptance and role gating (src/auth/dependencies.py). */
module Dependencies {
  import opened Common
  import opened Model
  import opened Service
  import opened Utils

  /** The two concrete bearers. */
  datatype BearerKind = AccessBearer | RefreshBearer

  const NotAuthenticated: Exception := HttpException(403, "Not authenticated")
  const InvalidOrExpired: Exception := HttpException(403, "This token is invalid or expired")
  const WantAccessToken: Exception := HttpException(403, "Please provide a access token")
  const WantRefreshToken: Exception := HttpException(403, "Please provide a refresh token")

  /** `token_valid`: the token decodes at all. */
  function TokenValid(token: string, jwtDecode: (string, int) -> JwtOutcome, now: int): (b: bool)
    ensures b <==> jwtDecode(token, now).Decoded?
  {
    DecodeToken(token, jwtDecode, now).Some?
  }

  /** `verify_token_data` of each bearer.  The check runs only on a truthy
      dict, so `None` and `{}` pass; a non-empty dict without `refresh`
      raises `KeyError`. */
  function VerifyTokenData(kind: BearerKind, tokenData: Option<Claims>): (r: Result<(), Exception>)
    ensures !TruthyDict(tokenData) ==> r.Ok?
    ensures TruthyDict(tokenData) && "refresh" !in tokenData.value ==> r == Err(KeyError("refresh"))
    ensures TruthyDict(tokenData) && "refresh" in tokenData.value ==>
              match kind
              case AccessBearer =>
                r == if Truthy(tokenData.value["refresh"]) then Err(WantAccessToken) else Ok(())
              case RefreshBearer =>
                r == if Truthy(tokenData.value["refresh"]) then Ok(()) else Err(WantRefreshToken)
  {
    if !TruthyDict(tokenData) then Ok(())
    else if "refresh" !in tokenData.value then Err(KeyError("refresh"))
    else
      var refresh := Truthy(tokenData.value["refresh"]);
      match kind
      case AccessBearer => if refresh then Err(WantAccessToken) else Ok(())
      case RefreshBearer => if !refresh then Err(WantRefreshToken) else Ok(())
  }

  /** `TokenBearer.__call__`.  `credentials` is what the HTTP bearer scheme
      extracted (`None` when the header is missing).  The token is decoded
      twice, at clock readings `t1` and then `t2`: the first result is the
      one returned, the second decides validity. */
  function Authenticate(kind: BearerKind, credentials: Option<string>,
                        jwtDecode: (string, int) -> JwtOutcome, t1: int, t2: int)
    : (r: Result<Option<Claims>, Exception>)
    ensures credentials.None? ==> r == Err(NotAuthenticated)
    ensures credentials.Some? && jwtDecode(credentials.value, t2).JwtFailed? ==>
              r == Err(InvalidOrExpired)
    ensures r.Ok? ==> credentials.Some? && jwtDecode(credentials.value, t2).Decoded?
    ensures r.Ok? ==> r.value == DecodeToken(credentials.value, jwtDecode, t1)
    ensures r.Ok? <==> credentials.Some? && jwtDecode(credentials.value, t2).Decoded? &&
                       VerifyTokenData(kind, DecodeToken(credentials.value, jwtDecode, t1)).Ok?
    ensures credentials.Some? && jwtDecode(credentials.value, t2).Decoded? &&
            VerifyTokenData(kind, DecodeToken(credentials.value, jwtDecode, t1)).Err? ==>
              r == Err(VerifyTokenData(kind, DecodeToken(credentials.value, jwtDecode, t1)).error)
  {
    match credentials
    case None => Err(NotAuthenticated)
    case Some(token) =>
      var tokenData := DecodeToken(token, jwtDecode, t1);
      if !TokenValid(token, jwtDecode, t2) then Err(InvalidOrExpired)
      else match VerifyTokenData(kind, tokenData)
           case Err(e) => Err(e)
           case Ok(_) => Ok(tokenData)
  }

  /** The access bearer accepts a dict carrying `refresh` exactly when the
      flag is falsy, the refresh bearer exactly when it is truthy. */
  lemma BearersSplitOnRefresh(c: Claims)
    requires "refresh" in c
    ensures VerifyTokenData(AccessBearer, Some(c)).Ok? <==> !Truthy(c["refresh"])
    ensures VerifyTokenData(RefreshBearer, Some(c)).Ok? <==> Truthy(c["refresh"])
  {
    assert |c| > 0 by { assert c.Keys != {}; }
  }

  /** Hence no dict that carries `refresh` passes both bearers. */
  lemma NoClaimsPassBothBearers(c: Claims)
    requires "refresh" in c
    ensures !(VerifyTokenData(AccessBearer, Some(c)).Ok? && VerifyTokenData(RefreshBearer, Some(c)).Ok?)
  {
    BearersSplitOnRefresh(c);
  }

  /** A falsy decode result (`None` or `{}`) passes both checks. */
  lemma FalsyDataPassesBothBearers(kind: BearerKind)
    ensures VerifyTokenData(kind, None).Ok? && VerifyTokenData(kind, Some(map[])).Ok?
  {
  }

  /** Session payloads are accepted by the bearer of their own kind only. */
  lemma SessionPayloadBearer(userData: Claims, expiry: Option<int>, refresh: bool, now: int, jti: string)
    ensures var p := SessionPayload(userData, expiry, refresh, now, jti);
            && (VerifyTokenData(AccessBearer, Some(p)).Ok? <==> !refresh)
            && (VerifyTokenData(RefreshBearer, Some(p)).Ok? <==> refresh)
  {
    var p := SessionPayload(userData, expiry, refresh, now, jti);
    BearersSplitOnRefresh(p);
  }

  /** An access token from `create_access_token` is accepted by the access
      bearer, with its own payload, until its lifetime ends; it is refused
      as invalid or expired when it ends by the second reading. */
  lemma AccessTokenAtBearer(userData: Claims, expiry: Option<int>, now: int, jti: string,
                            encode: Claims -> string, jwtDecode: (string, int) -> JwtOutcome,
                            t1: int, t2: int)
    requires JwtRoundTrips(encode, jwtDecode) && t1 <= t2
    ensures var p := SessionPayload(userData, expiry, false, now, jti);
            var ttl := if expiry.Some? then expiry.value else AccessTokenExpire;
            var r := Authenticate(AccessBearer, Some(encode(p)), jwtDecode, t1, t2);
            && (t2 < now + ttl ==> r == Ok(Some(p)))
            && (t2 >= now + ttl ==> r == Err(InvalidOrExpired))
  {
    var p := SessionPayload(userData, expiry, false, now, jti);
    SessionTokenLifetime(userData, expiry, false, now, jti, encode, jwtDecode, t1);
    SessionTokenLifetime(userData, expiry, false, now, jti, encode, jwtDecode, t2);
    SessionPayloadBearer(userData, expiry, false, now, jti);
  }

  /** Because the two decodes happen at different times, a token that only
      becomes decodable between them (a JWT `nbf` claim, say) is accepted
      with `None` as its payload. */
  lemma LateDecodableTokenYieldsNone(kind: BearerKind, token: string,
                                     jwtDecode: (string, int) -> JwtOutcome, t1: int, t2: int)
    requires jwtDecode(token, t1).JwtFailed? && jwtDecode(token, t2).Decoded?
    ensures Authenticate(kind, Some(token), jwtDecode, t1, t2) == Ok(None)
  {
  }

  /** If decoding at the later reading implies the same result at the
      earlier one, an accepted token always comes with its payload. */
  lemma StableDecodeYieldsPayload(kind: BearerKind, token: string,
                                  jwtDecode: (string, int) -> JwtOutcome, t1: int, t2: int)
    requires jwtDecode(token, t2).Decoded? ==> jwtDecode(token, t1) == jwtDecode(token, t2)
    ensures var r := Authenticate(kind, Some(token), jwtDecode, t1, t2);
            r.Ok? ==> r.value == Some(jwtDecode(token, t2).claims)
  {
  }

  /** `get_current_user`: the user whose email is `payload['user']['email']`.
      Missing keys raise `KeyError`; a payload or `user` claim that is not a
      dict raises `TypeError`. */
  function GetCurrentUser(tokenDetails: Option<Claims>, users: seq<User>)
    : (r: Result<Option<User>, Exception>)
    ensures r.Ok? <==> tokenDetails.Some? && "user" in tokenDetails.value &&
                       tokenDetails.value["user"].JObj? && "email" in tokenDetails.value["user"].fields
    ensures r.Ok? && r.value.Some? ==>
              r.value.value in users &&
              tokenDetails.value["user"].fields["email"] == JStr(r.value.value.email)
    ensures r.Ok? && r.value.None? ==>
              forall u :: u in users ==> tokenDetails.value["user"].fields["email"] != JStr(u.email)
    ensures tokenDetails.None? ==> r.Err? && r.error.TypeError?
    ensures tokenDetails.Some? && "user" !in tokenDetails.value ==> r == Err(KeyError("user"))
    ensures tokenDetails.Some? && "user" in tokenDetails.value && !tokenDetails.value["user"].JObj? ==>
              r.Err? && r.error.TypeError?
    ensures (tokenDetails.Some? && "user" in tokenDetails.value && tokenDetails.value["user"].JObj? &&
             "email" !in tokenDetails.value["user"].fields) ==> r == Err(KeyError("email"))
  {
    match tokenDetails
    case None => Err(TypeError("'NoneType' object is not subscriptable"))
    case Some(c) =>
      if "user" !in c then Err(KeyError("user"))
      else match c["user"]
           case JObj(claims) =>
             if "email" !in claims then Err(KeyError("email"))
             else (match claims["email"]
                   case JStr(email) => Ok(GetUserByEmail(users, email))
                   case _ => Ok(None))
           case _ => Err(TypeError("object is not subscriptable"))
  }

  /** `RoleChecker(allowed_roles)`: the list is fixed at construction. */
  datatype RoleChecker = RoleChecker(allowedRoles: seq<string>)

  const NotAllowed: Exception := HttpException(403, "You are not allowed to perform this action")

  /** The body of `RoleChecker.__class__`: true for a user whose role is
      listed, 403 for any other user; with no user, reading `role` fails. */
  function CheckRole(checker: RoleChecker, currentUser: Option<User>): (r: Result<bool, Exception>)
    ensures r == Ok(true) <==> currentUser.Some? && currentUser.value.role in checker.allowedRoles
    ensures r.Ok? ==> r.value
    ensures currentUser.Some? && r.Err? ==> r.error == NotAllowed
    ensures currentUser.None? ==> r == Err(AttributeError("role"))
  {
    match currentUser
    case None => Err(AttributeError("role"))
    case Some(u) => if u.role in checker.allowedRoles then Ok(true) else Err(NotAllowed)
  }

  /** Calling a `RoleChecker` instance, as a dependency would: the class
      defines `__class__` rather than `__call__`, so the call itself fails
      and the role test above is never reached. */
  function CallRoleChecker(checker: RoleChecker, currentUser: Option<User>): (r: Result<bool, Exception>)
    ensures r.Err? && r.error.TypeError?
  {
    Err(TypeError("'RoleChecker' object is not callable"))
  }

  /** Even a user whose role is allowed is not let through by a call. */
  lemma CallNeverGrants(checker: RoleChecker, u: User)
    requires u.role in checker.allowedRoles
    ensures CheckRole(checker, Some(u)) == Ok(true)
    ensures CallRoleChecker(checker, Some(u)) != Ok(true)
  {
  }
}
