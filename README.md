# Account management core of the auth package, in Dafny

This project models the account-management core of a FastAPI authentication
package and proves properties of that model:

- the `users` record with its defaults (`Model`, model.dfy);
- the signup-input validators and the outward user view (`Serializers`, serializers.dfy);
- the user store, its queries and the operations that change it (`Service`, service.dfy);
- the signup endpoint's existence guard and the user listing (`Api`, api.dfy);
- how a bearer token is accepted or refused, and the role gate (`Dependencies`, dependencies.dfy);
- how session-token payloads and one-time link tokens are built and decoded (`Utils`, utils.dfy).

`Common` (common.dfy) holds the shared `Option`/`Result` types, a JSON-like
value type for the contents of Python dicts, Python truthiness, and the
exceptions that leave the core.

Several things are given to the model from outside. The password hash is a
function parameter `hash: string -> string`. The JWT library is a pair
`encode`/`jwtDecode`, and the link-token serializer is a pair `dumps`/`unsign`.
The clock readings, the UUIDs and the generated `jti` are plain parameters.
Lemmas that need the codecs to behave state that as a named assumption:
`Utils.JwtRoundTrips` and `Utils.SignerRoundTrips`. `JwtRoundTrips` covers
only session-shaped payloads (`Utils.SessionShaped`). These have exactly the
keys user, exp, jti and refresh, with an integer exp. A default decode refuses
payloads with an `aud` claim, a future `nbf` or `iat`, or a non-integer `exp`,
so nothing is assumed about those.

The store is the class `Service.UserService`. Its field `users` is the table, in
insertion order. Its invariant `Valid()` says that uids are distinct, which is
the primary key. Email, username and UCIN have no uniqueness constraint at the
record level. `Model.UniqueKeys` states that uniqueness, and the model proves
that the signup guard keeps it (`Api.GuardKeepsKeysUnique`, `Api.Signup`). It
also proves that the unguarded service call does not (`Api.UnguardedCreateCanDuplicate`).

The model follows the code on these points:

- a new account's role defaults to "clan";
- passwords need no lower-case letter;
- a link token's embedded `exp` is never checked, only the signer's one-hour age limit;
- the token blocklist check is commented out, so revoked tokens are not refused;
- `get_all_users` hard-codes the role "admin", so its 401 branch is dead.

Some quirks of the code are stated as lemmas:

- The two gender enums differ in case: the record uses "male"/"female" and the signup input uses "Male"/"Female" (`Service.SerializerSpellingFindsNoGender`).
- `RoleChecker` defines `__class__` instead of `__call__`, so calling an instance fails (`Dependencies.CallNeverGrants`).
- Bearer checks run only on a truthy dict, so `{}` and `None` pass both bearers (`Dependencies.FalsyDataPassesBothBearers`).
- `TokenBearer.__call__` decodes the token twice. A token that becomes decodable between the two decodes is accepted with payload `None` (`Dependencies.LateDecodableTokenYieldsNone`).
- The framework's length check runs before `validate_password`, so that validator's own length message never reaches a client (`Serializers.ShortPasswordMessageUnreachable`).

## Model

| member | source | states |
|---|---|---|
| `Model.GenderValue` | src/auth/model.py:12-14 | a record gender is spelled "male" or "female" |
| `Model.GenderFromValue` | src/auth/model.py:12-14 | exactly "male" and "female" name a member, and each names the member with that value |
| `Model.GenderRoundTrip` | src/auth/model.py:12-14 | parsing a member's value gives the member back; distinct members have distinct values |
| `Model.NewUser` | src/auth/model.py:16-38 | a new record takes the given columns; `is_verified` is false, role is "clan", there is no TOTP secret, 2FA is off, and both timestamps are the clock reading |
| `Model.NoRecordLevelUniqueness` | src/auth/model.py:19-28 | two records that differ only in uid have distinct primary keys yet share email, username and UCIN |
| `Serializers.FindChar` | src/auth/serializers.py:53-57 | a one-class `re.search` finds a position holding a matching character exactly when one exists |
| `Serializers.ValidateUcin` | src/auth/serializers.py:41-46 | accepted iff exactly 13 characters, all digits, and then returned unchanged; "only digits" is reported iff some character is not a digit, "13 digits" iff the value is all digits of another length |
| `Serializers.NonDigitUcinReportsDigitError` | src/auth/serializers.py:42-45 | a value containing a non-digit reports "only digits", whatever its length |
| `Serializers.ValidatePassword` | src/auth/serializers.py:50-59 | accepted iff length ≥ 8, an A–Z letter, a digit and a listed symbol, and then returned unchanged; the error reported is the first rule that fails, tried in the order length, upper case, digit, symbol |
| `Serializers.NoLowercaseRequired` | src/auth/serializers.py:50-59 | a password with no lower-case letter is accepted |
| `Serializers.ParseSerializerGender` | src/auth/serializers.py:25-27 | the input gender must be exactly "Male" or "Female" |
| `Serializers.ValidateCreate` | src/auth/serializers.py:29-59 | a signup body is accepted iff username length is in [3, 15], email length ≤ 50, the password and UCIN validators pass and the gender is a member; fields are then passed on unchanged; otherwise the errors are non-empty and listed field by field |
| `Serializers.ShortPasswordMessageUnreachable` | src/auth/serializers.py:32-52 | the validator's "at least 8 characters" message never appears among the errors, because the length constraint fires first |
| `Serializers.DumpUserView` | src/auth/serializers.py:9-23 | the serialised view has every declared field except `password_hash` |
| `Service.FirstIndex` | src/auth/service.py:21-28 | gives the first row satisfying the filter, or none when no row does |
| `Service.FirstUser` | src/auth/service.py:21-28 | `first()` returns a stored matching row that no earlier row precedes, or `None` iff nothing matches |
| `Service.Filter` | src/auth/service.py:30-37 | `all()` returns exactly the matching rows, each no more often than in the table, in table order |
| `Service.GetUserByEmail` | src/auth/service.py:21-28 | a stored row with that email, or `None` iff there is none |
| `Service.GetUserByUsername` | src/auth/service.py:39-46 | a stored row with that username, or `None` iff there is none |
| `Service.GetUserByUcin` | src/auth/service.py:66-73 | a stored row with that UCIN, or `None` iff there is none |
| `Service.GetUserByUid` | src/auth/service.py:84-91 | a stored row with that uid, or `None` iff there is none |
| `Service.UidLookupUnique` | src/auth/service.py:84-91 | with distinct uids, the lookup by uid returns the one row carrying it |
| `Service.GetUsersByFirstName` | src/auth/service.py:30-37 | exactly the stored rows with that first name, each no more often than in the table, in table order |
| `Service.GetUsersByLastName` | src/auth/service.py:48-55 | exactly the stored rows with that last name, each no more often than in the table, in table order |
| `Service.GetUsersByDateOfBirth` | src/auth/service.py:57-64 | exactly the stored rows with that date of birth, each no more often than in the table, in table order |
| `Service.GetUsersByGender` | src/auth/service.py:75-82 | exactly the stored rows whose gender has that spelling, each no more often than in the table, in table order |
| `Service.SerializerSpellingFindsNoGender` | src/auth/service.py:75-82 | querying with the signup enum's capitalised spelling returns no rows |
| `Service.UserExists` | src/auth/service.py:95-99 | true iff some row has the same email OR the same username OR the same UCIN |
| `Service.InsertByUid` | src/auth/service.py:13 | inserting into a uid-ordered sequence keeps it ordered and adds exactly that row |
| `Service.SortByUid` | src/auth/service.py:13 | the result is ordered by uid and a permutation of the input |
| `Service.GetAllUsers` | src/auth/service.py:12-17 | every stored row and nothing else, ordered by uid |
| `Service.SetAttr` | src/auth/service.py:176-177 | `setattr` makes the named column read the new value and leaves every other column, uid included, unchanged |
| `Service.PatchEffect` | src/auth/service.py:175-189 | after a patch, each named column holds the value its last entry gives and every other column is as before |
| `Service.PatchKeepsUid` | src/auth/service.py:175-189 | no patch changes the uid |
| `Service.ReplaceRow` | src/auth/service.py:178-180 | committing a changed record replaces the row with its uid and keeps every other row and every uid |
| `Service.RecordGender` | src/auth/service.py:103-107 | the record member is matched to the input member by name, and its spelling differs from the input's |
| `Service.FromCreate` | src/auth/service.py:103-107 | `User(**dump)` copies every input field, leaves the plaintext in `password_hash`, and takes the record defaults, both timestamps being the clock reading |
| `Service.FilterKeepsDistinct` | src/auth/service.py:161-172 | removing rows keeps uids distinct and email, username and UCIN unique |
| `Service.Without` | src/auth/service.py:161-172 | after deletion, exactly the other rows remain |
| `Service.WithoutRemovesOne` | src/auth/service.py:161-172 | with distinct uids, deleting a present uid removes exactly one copy of that row |
| `Service.FilterNoneKept` | src/auth/service.py:30-37 | a filter that matches no row returns the empty list |
| `Service.FilterAllKept` | src/auth/service.py:30-37 | a filter that matches every row returns the table unchanged |
| `Service.UserService.Add` | src/auth/service.py:111-113 | a row with a free uid is appended and returned; a taken uid raises `IntegrityError` and nothing changes |
| `Service.UserService.CreateUser` | src/auth/service.py:102-115 | appends exactly one row: the password is hashed, every other input field is copied, role is "clan", unverified; existing rows are unchanged |
| `Service.UserService.CreateUserAdmin` | src/auth/service.py:118-133 | as `CreateUser`, but with role "admin" and verified |
| `Service.UserService.CreateUserSomeRole` | src/auth/service.py:136-152 | as `CreateUser`, but with role "role_name"; the verification flag keeps its default |
| `Service.UserService.DeleteUser` | src/auth/service.py:161-172 | a present uid: exactly that row is removed and `{}` returned; an absent uid: `None` and no change; key uniqueness is kept |
| `Service.UserService.PatchUser` | src/auth/service.py:176-178 | the setattr loop applies the patch entry by entry, then commits the record |
| `Service.UserService.ApproveUser` | src/auth/service.py:175-180 | returns the same user, patched, and the stored row with its uid reflects it |
| `Service.UserService.UpdateUserEmailVerify` | src/auth/service.py:183-189 | as `ApproveUser` |
| `Api.SignedUpUser` | src/auth/api.py:38 | the row a guarded signup stores: the hashed password, the input fields, role "clan", unverified |
| `Api.GuardKeepsKeysUnique` | src/auth/api.py:33-38 | on a table with unique keys, appending a row keeps them unique iff the existence check is false |
| `Api.UnguardedCreateCanDuplicate` | src/auth/service.py:102-115 | without the guard, creating a user can store a second row with the same email |
| `Api.Signup` | src/auth/api.py:27-40 | a colliding email, username or UCIN gives 403 and leaves the store unchanged; otherwise exactly one row is created and returned; key uniqueness is preserved |
| `Api.ListAllUsers` | src/auth/api.py:16-24 | always succeeds and returns every row ordered by uid; the 401 branch is unreachable |
| `Utils.SessionPayload` | src/auth/utils.py:30-36 | the payload has exactly the keys user, exp, jti and refresh; user, jti and refresh are the inputs; exp is now + expiry, or now + 43200 s when no expiry is given |
| `Utils.ZeroExpiryIsHonoured` | src/auth/utils.py:34 | a zero lifetime counts as given: exp is now |
| `Utils.FreshIdsGiveDistinctPayloads` | src/auth/utils.py:35 | two calls drawing different ids give different payloads |
| `Utils.CreateAccessToken` | src/auth/utils.py:30-44 | the token is the encoding of the session payload built key by key |
| `Utils.DecodeToken` | src/auth/utils.py:47-59 | `None` exactly when the codec reports an error, otherwise the decoded claims |
| `Utils.SessionTokenLifetime` | src/auth/utils.py:30-59 | if the codec round-trips session-shaped payloads, a session token decodes to its own payload before its exp and to `None` from then on |
| `Utils.StampExpiry` | src/auth/utils.py:73-74 | the dict gains `exp` = the ISO text of now + 60 s; every other entry is kept |
| `Utils.CreateUrlSafeToken` | src/auth/utils.py:72-76 | the caller's dict is changed in place to the stamped dict, and the token serialises that dict |
| `Utils.Loads` | src/auth/utils.py:81 | a valid signature no older than the max age yields the payload; an older one raises `SignatureExpired`; a refused signature's error passes through unchanged |
| `Utils.DecodeUrlSafeToken` | src/auth/utils.py:79-89 | an expired signature gives 400 "Verification link has expired.", any other bad signature gives 400 "Invalid verification token.", anything else gives 500; success returns the payload unchanged and its exp is never consulted |
| `Utils.LinkTokenOutlivesStampedExpiry` | src/auth/utils.py:72-89 | a link token is accepted for 3600 s after signing, long after its stamped one-minute exp, and refused as expired after that |
| `Dependencies.TokenValid` | src/auth/dependencies.py:44-51 | true iff the token decodes |
| `Dependencies.VerifyTokenData` | src/auth/dependencies.py:53-65 | the access bearer refuses a truthy `refresh`, the refresh bearer a falsy one; a falsy dict passes; a non-empty dict without `refresh` raises `KeyError` |
| `Dependencies.Authenticate` | src/auth/dependencies.py:20-42 | missing credentials or a token that fails to decode give 403; a decodable token the bearer refuses raises the bearer's own error (403 asking for the other kind of token, or `KeyError`); an accepted token yields exactly its first decode result |
| `Dependencies.BearersSplitOnRefresh` | src/auth/dependencies.py:57-65 | for a dict with `refresh`: the access bearer accepts iff the flag is falsy; the refresh bearer accepts iff it is truthy |
| `Dependencies.NoClaimsPassBothBearers` | src/auth/dependencies.py:57-65 | no dict with `refresh` passes both bearers |
| `Dependencies.FalsyDataPassesBothBearers` | src/auth/dependencies.py:58-65 | `None` and `{}` pass both bearer checks |
| `Dependencies.SessionPayloadBearer` | src/auth/dependencies.py:57-65 | a session payload passes the access bearer iff refresh is false, and the refresh bearer iff it is true |
| `Dependencies.AccessTokenAtBearer` | src/auth/dependencies.py:20-42 | if the codec round-trips session-shaped payloads, an issued access token is accepted with its own payload before its exp, and refused with 403 "invalid or expired" from then on |
| `Dependencies.LateDecodableTokenYieldsNone` | src/auth/dependencies.py:25-42 | a token that fails the first decode but passes the second is accepted with payload `None` |
| `Dependencies.StableDecodeYieldsPayload` | src/auth/dependencies.py:25-42 | if decoding is stable between the two readings, an accepted token comes with its decoded payload |
| `Dependencies.GetCurrentUser` | src/auth/dependencies.py:69-74 | the stored user whose email is `payload['user']['email']`, or `None` if there is none; missing keys raise `KeyError`, non-dicts raise `TypeError` |
| `Dependencies.CheckRole` | src/auth/dependencies.py:81-87 | permits iff the user's role is in the allowed list; any other user gets 403 |
| `Dependencies.CallRoleChecker` | src/auth/dependencies.py:77-81 | calling an instance raises `TypeError`, since the class defines no `__call__` |
| `Dependencies.CallNeverGrants` | src/auth/dependencies.py:77-87 | even a user with an allowed role is not let through by calling the checker |

## Left out

- bcrypt hashing (src/auth/utils.py:16-26) is a foreign library. It is the parameter `hash`, and `verify_password_hash` is not called by the modelled core.
- The JWT and itsdangerous signing internals are abstract functions. The age check is the exception: `max_age=3600` is part of the call.
- Token revocation is not modelled, because the blocklist check is commented out (src/auth/dependencies.py:33-38).
- `async`/await, sessions, transactions and engine setup are not modelled. A commit either stores a row or raises `IntegrityError` on a duplicate uid.
- Row order is modelled as insertion order. SQL gives no order without ORDER BY, so "first" means first in insertion order.
- A uid is an integer below 2^128. The text-to-UUID conversion of the `uid: str` lookup argument is not modelled.
- Timestamps are integer seconds. Python `datetime` values and the JWT library's conversion of them are not modelled: sub-second truncation and naive local time read as UTC are both lost.
- `created_at` and `updated_at` share one clock reading, although the source makes two calls.
- `isoformat` is an abstract function.
- `RecordGender`: the record member is the one with the same name as the input member. What the ORM would store for an input-enum member is not modelled.
- `Service.SerializerSpellingFindsNoGender`: its "no rows" holds only under that by-name mapping. If the ORM stored the input member's own value "Male", the query would find rows; a native ENUM column might instead raise. Neither case is modelled.
- `Service.UserService.PatchUser` (and `ApproveUser`, `UpdateUserEmailVerify`): the user is passed as a value. The in-place `setattr` on the caller's object becomes a returned record, so aliasing of that object is not modelled. The model also assumes the object is the row attached to the session. `ReplaceRow` writes the patched record over the row with its uid, whereas `commit()` would not write a detached or transient object.
- `Service.SetAttr`: a patch entry is typed per column. `setattr` with an unknown key, with an ill-typed value, or on `uid` is not modelled.
- `Authenticate`: HTTP bearer parsing is reduced to present or absent credentials. The "resolution" text of the 403 detail is dropped.
- `DecodeToken`: only `PyJWTError` failures are modelled. Other exceptions raised by the library would propagate and are not modelled.
- `GetCurrentUser`: a non-string `email` claim is modelled as matching no row. What the database would do with it is not modelled.
- `Loads`: itsdangerous also refuses a timestamp in the future. That case is not modelled.
- Response shaping is not modelled. This includes the signup route's `response_model=UserCreateSerializer`, which declares `password_hash`.
- `UserSerializer` declares an `id` and an `update_at` field that the record lacks. Only its `password_hash` exclusion is modelled.
- Pydantic error texts are not modelled. Each error is a `FieldError` value naming the field and the failed constraint.
- Character classes are ASCII only. `str.isdigit` and `\d` also accept other Unicode digits.
- Login, rate limiting, TOTP/2FA, email sending, the verify-email and password-reset endpoints, and `update_password` (an empty TODO, src/auth/service.py:156-158) have no code in the modelled files.
- Logging, Jinja templates and settings loading are not modelled.
