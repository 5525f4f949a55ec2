/** Session tokens and one-time link tokens (src/auth/utils.py).  The JWT
    library and the itsdangerous serializer are abstract codecs passed in as
    functions; the clock and the UUID source are plain parameters. */
module Utils {
  import opened Common

  // ---------------------------------------------------------------------
  // Session tokens
  // ---------------------------------------------------------------------

  /** Default session-token lifetime, in seconds. */
  const AccessTokenExpire: int := 43200

  const SessionKeys: set<string> := {"user", "exp", "jti", "refresh"}

  /** The payload `create_access_token` signs.  `now` is the clock reading,
      `jti` the id drawn from the UUID source. */
  function SessionPayload(userData: Claims, expiry: Option<int>, refresh: bool, now: int, jti: string)
    : (p: Claims)
    ensures p.Keys == SessionKeys
    ensures p["user"] == JObj(userData) && p["refresh"] == JBool(refresh) && p["jti"] == JStr(jti)
    ensures expiry.None? ==> p["exp"] == JInt(now + 43200)
    ensures expiry.Some? ==> p["exp"] == JInt(now + expiry.value)
  {
    map["user" := JObj(userData),
        "exp" := JInt(now + (if expiry.Some? then expiry.value else AccessTokenExpire)),
        "jti" := JStr(jti),
        "refresh" := JBool(refresh)]
  }

  /** A given lifetime is used even when it is zero: only its absence
      selects the default. */
  lemma ZeroExpiryIsHonoured(userData: Claims, refresh: bool, now: int, jti: string)
    ensures SessionPayload(userData, Some(0), refresh, now, jti)["exp"] == JInt(now)
  {
  }

  /** Two tokens drawn with different ids have different payloads. */
  lemma FreshIdsGiveDistinctPayloads(userData: Claims, expiry: Option<int>, refresh: bool,
                                     now: int, jti1: string, jti2: string)
    requires jti1 != jti2
    ensures SessionPayload(userData, expiry, refresh, now, jti1) !=
            SessionPayload(userData, expiry, refresh, now, jti2)
  {
    assert SessionPayload(userData, expiry, refresh, now, jti1)["jti"] == JStr(jti1);
  }

  /** `create_access_token`: the payload is built key by key, then encoded. */
  method CreateAccessToken(userData: Claims, expiry: Option<int>, refresh: bool, now: int,
                           jti: string, encode: Claims -> string)
    returns (token: string)
    ensures token == encode(SessionPayload(userData, expiry, refresh, now, jti))
  {
    var payload: Claims := map[];
    payload := payload["user" := JObj(userData)];
    payload := payload["exp" := JInt(now + (if expiry.Some? then expiry.value else AccessTokenExpire))];
    payload := payload["jti" := JStr(jti)];
    payload := payload["refresh" := JBool(refresh)];
    token := encode(payload);
  }

  /** The failures `jwt.decode` reports; all are `PyJWTError`s. */
  datatype JwtError = ExpiredSignature | InvalidSignature | DecodeError | OtherJwtError

  datatype JwtOutcome = Decoded(claims: Claims) | JwtFailed(error: JwtError)

  /** `decode_token`: the decoded claims, or `None` on any decoding error. */
  function DecodeToken(token: string, jwtDecode: (string, int) -> JwtOutcome, now: int)
    : (r: Option<Claims>)
    ensures r.None? <==> jwtDecode(token, now).JwtFailed?
    ensures r.Some? ==> r.value == jwtDecode(token, now).claims
  {
    match jwtDecode(token, now)
    case Decoded(c) => Some(c)
    case JwtFailed(_) => None
  }

  /** A payload whose integer `exp` is not after time `t`. */
  predicate ExpiredAt(p: Claims, t: int)
  {
    "exp" in p && p["exp"].JInt? && p["exp"].i <= t
  }

  /** A payload with exactly the session keys and an integer `exp`: no
      `aud`, `nbf` or `iat` claim that a default decode would also check. */
  predicate SessionShaped(p: Claims)
  {
    p.Keys == SessionKeys && p["exp"].JInt?
  }

  /** What the codec is assumed to do with session-shaped payloads it
      encoded itself: give the payload back until its `exp`, and report
      expiry from then on.  Nothing is assumed about other payloads. */
  ghost predicate JwtRoundTrips(encode: Claims -> string, jwtDecode: (string, int) -> JwtOutcome)
  {
    forall p: Claims, t: int {:trigger jwtDecode(encode(p), t)} ::
      SessionShaped(p) ==>
        jwtDecode(encode(p), t) == if ExpiredAt(p, t) then JwtFailed(ExpiredSignature) else Decoded(p)
  }

  /** A session token decodes to its own payload until its lifetime ends,
      and to `None` afterwards. */
  lemma SessionTokenLifetime(userData: Claims, expiry: Option<int>, refresh: bool, now: int,
                             jti: string, encode: Claims -> string,
                             jwtDecode: (string, int) -> JwtOutcome, t: int)
    requires JwtRoundTrips(encode, jwtDecode)
    ensures var p := SessionPayload(userData, expiry, refresh, now, jti);
            var ttl := if expiry.Some? then expiry.value else AccessTokenExpire;
            DecodeToken(encode(p), jwtDecode, t) == if t >= now + ttl then None else Some(p)
  {
  }

  // ---------------------------------------------------------------------
  // One-time link tokens
  // ---------------------------------------------------------------------

  /** The lifetime stamped into a link token, in seconds. */
  const LinkTokenLifetime: int := 60

  /** The age past which a link token is refused on decode, in seconds. */
  const LinkTokenMaxAge: int := 3600

  /** A caller's dict, which `create_url_safe_token` changes in place. */
  class Dict {
    var entries: Claims

    constructor (entries: Claims)
      ensures this.entries == entries
    {
      this.entries := entries;
    }
  }

  /** The dict after `data["exp"] = (now + 1 minute).isoformat()`. */
  function StampExpiry(data: Claims, now: int, isoformat: int -> string): (d: Claims)
    ensures d.Keys == data.Keys + {"exp"}
    ensures d["exp"] == JStr(isoformat(now + 60))
    ensures forall k :: k in data && k != "exp" ==> d[k] == data[k]
  {
    data["exp" := JStr(isoformat(now + LinkTokenLifetime))]
  }

  /** `create_url_safe_token`: stamps the expiry into the caller's dict,
      then serialises that dict, signed at time `signedAt`. */
  method CreateUrlSafeToken(data: Dict, now: int, isoformat: int -> string,
                            signedAt: int, dumps: (Claims, int) -> string)
    returns (token: string)
    modifies data
    ensures data.entries == StampExpiry(old(data.entries), now, isoformat)
    ensures token == dumps(data.entries, signedAt)
  {
    data.entries := data.entries["exp" := JStr(isoformat(now + LinkTokenLifetime))];
    token := dumps(data.entries, signedAt);
  }

  /** The itsdangerous exceptions, from most to least specific. */
  datatype SignerError =
    | SignatureExpired | BadTimeSignature | BadHeader | BadSignature | BadPayload | BadData
    | NotASignerError

  /** `isinstance(e, BadSignature)`: `SignatureExpired` and `BadTimeSignature`
      and `BadHeader` are subclasses of `BadSignature`. */
  predicate IsBadSignature(e: SignerError)
  {
    e == SignatureExpired || e == BadTimeSignature || e == BadHeader || e == BadSignature
  }

  /** What checking the signature of a token yields: the payload with the
      time it was signed, or the exception raised. */
  datatype Unsigned = Signed(payload: Claims, signedAt: int) | Refused(error: SignerError)

  /** `serializer.loads(token, max_age)` at time `now`: a valid signature
      older than `maxAge` raises `SignatureExpired`. */
  function Loads(u: Unsigned, maxAge: int, now: int): (r: Result<Claims, SignerError>)
    ensures r.Ok? <==> u.Signed? && now - u.signedAt <= maxAge
    ensures r.Ok? ==> r.value == u.payload
    ensures u.Signed? && r.Err? ==> r.error == SignatureExpired
    ensures u.Refused? ==> r == Err(u.error)
  {
    match u
    case Signed(p, ts) => if now - ts > maxAge then Err(SignatureExpired) else Ok(p)
    case Refused(e) => Err(e)
  }

  const LinkExpired: Exception := HttpException(400, "Verification link has expired.")
  const LinkInvalid: Exception := HttpException(400, "Invalid verification token.")
  const LinkInternal: Exception := HttpException(500, "Internal Server Error")

  /** `decode_url_safe_token`.  The clauses are tried in order, so an expired
      signature is reported as expired although it is also a bad signature.
      Only the signer's age limit is enforced; the payload's own `exp` is
      returned, never compared with the clock. */
  function DecodeUrlSafeToken(token: string, unsign: string -> Unsigned, now: int)
    : (r: Result<Claims, Exception>)
    ensures r.Ok? <==> unsign(token).Signed? && now - unsign(token).signedAt <= 3600
    ensures r.Ok? ==> r.value == unsign(token).payload
    ensures r == Err(LinkExpired) <==>
              (unsign(token).Signed? && now - unsign(token).signedAt > 3600) ||
              unsign(token) == Refused(SignatureExpired)
    ensures r == Err(LinkInvalid) <==>
              unsign(token).Refused? && IsBadSignature(unsign(token).error) &&
              unsign(token).error != SignatureExpired
    ensures r == Err(LinkInternal) <==>
              unsign(token).Refused? && !IsBadSignature(unsign(token).error)
  {
    match Loads(unsign(token), LinkTokenMaxAge, now)
    case Ok(data) => Ok(data)
    case Err(e) =>
      if e == SignatureExpired then Err(LinkExpired)
      else if IsBadSignature(e) then Err(LinkInvalid)
      else Err(LinkInternal)
  }

  /** What the serializer is assumed to do with tokens it made itself. */
  ghost predicate SignerRoundTrips(dumps: (Claims, int) -> string, unsign: string -> Unsigned)
  {
    forall d: Claims, ts: int {:trigger unsign(dumps(d, ts))} :: unsign(dumps(d, ts)) == Signed(d, ts)
  }

  /** A link token is accepted for an hour after signing, long after the
      one-minute expiry stamped into it, and refused as expired after that. */
  lemma LinkTokenOutlivesStampedExpiry(data: Claims, now: int, isoformat: int -> string,
                                       signedAt: int, dumps: (Claims, int) -> string,
                                       unsign: string -> Unsigned, t: int)
    requires SignerRoundTrips(dumps, unsign)
    ensures var d := StampExpiry(data, now, isoformat);
            var r := DecodeUrlSafeToken(dumps(d, signedAt), unsign, t);
            && (t <= signedAt + 3600 ==> r == Ok(d))
            && (t > signedAt + 3600 ==> r == Err(LinkExpired))
  {
    var d := StampExpiry(data, now, isoformat);
    assert unsign(dumps(d, signedAt)) == Signed(d, signedAt);
  }
}
