# couchdb-jwt-auth-server: token and session lifecycle, in Dafny

This project models the core of the CouchDB JWT authentication server.

- **Login.** The server checks a user's credentials with the CouchDB
  identity provider. It then creates a random session id, records it in a
  session store, and issues a signed JSON Web Token (RFC 7519, HMAC-SHA256
  as in section 3.2 of RFC 7518) naming the user, the user's roles and the
  session.
- **Info, renew and logout.** These validate such a token against the
  signature, its expiry and the session store. Renew reissues the token
  with refreshed roles. Logout removes the session from the store.

The repository contains two versions of these operations, and they behave
differently:

- the `create-*` modules that `src/index.js` wires together;
- the single object in `src/api.js`. No file imports either `src/api.js` or
  `src/routes.js`; that `src/routes.js` serves this object is inferred from
  its call `validateToken(req.jwt, {ignoreExpiration: true})`
  (src/routes.js:4-6), which matches the `(token, opts={})` signature at
  src/api.js:59.

Each is modelled as written. Lemmas state where the two agree and where
they differ.

## Modules

- **Supporting definitions.** `Wrappers` holds `Option` and `Result`; a
  `Result` stands for a settled promise. `JsValues` holds JavaScript
  truthiness, `typeof`, lodash `defaults` and number text. `JsText` holds
  `trim` and the `/^Bearer\s*(.*)/` match.
- **`Jwt`.** `sign`, `decode` and `verify`, over a token kept as the
  structured value it encodes.
- **`HttpError`.** The `HTTPError` record, `toString`, and the error route.
- **Session stores.** One module per backend:
  - `MemoryStore`: a class over a map, including the names every plain
    object inherits;
  - `EmptyStore`: a stateless value;
  - `RedisStore`: a class over a Redis client class;
  - `CouchStore`: a class over a CouchDB database class.

  `Stores` is the server's `sessionStore` slot. It says, for every backend,
  which ids are live.
- **Session ids, tokens and roles.**
  - `SessionId`: session ids as the hex encoding of 16 random bytes.
  - `TokenIssue`: token issuing.
  - `ValidateToken`: validation as `src/create-validate-token.js` does it.
  - `RefreshRoles`: the role-refresh policy.
- **`Lifecycle`.** `generateSession`, and the `login`/`logout`/`renew` of
  the `create-*` modules, as methods that change the session store.
- **`Api`.** The `src/api.js` variant. It reuses `TokenIssue.GenerateToken`
  and `Lifecycle.GenerateSession`, because `src/api.js:46-57` repeats that
  code unchanged.
- **Request handling.**
  - `Request`: the request's header and its `jwt` slot.
  - `ExtractJwt` and `Routes`: the two header extractors, and the `info`
    handler.
- **Configuration and responses.**
  - `ParseOptions` and `CouchOptions`: normalisation of connection options.
  - `ResponseUtils`: response shaping and content negotiation.
  - `AppConfig`: the configuration step of `createApp`.

Parameters stand in for the outside world:

- the clock, as `now` in seconds;
- the 16 random bytes;
- the identity provider's answers;
- `url.parse`;
- the reachability of the Redis and CouchDB backends (a `fault` field on
  their client classes).

### How the two variants and the tests differ

The server carries two implementations of its operations: the `create-*`
files that `createApp` wires up, and the object built in `src/api.js`. The
model keeps both and follows the code in each case:

- The `info` handler validates with `ignoreExpiration: true`
  (`src/routes.js:4-6`). So `info` accepts an expired token whose session
  is live.
- `logout` and `renew` in `src/api.js:111-121` validate without
  `ignoreExpiration`, so they reject expired tokens. `src/create-logout.js:5`
  and `src/create-renew.js:5` pass `true`, so an expired token can still log
  out or be renewed there.
- The `create-*` default refresher rethrows an error that has no response
  (`src/create-refresh-roles.js:11-12`). The `src/api.js` refresher returns
  the existing roles on every failure (`src/api.js:6-16`).
- In `src/create-validate-token.js:9-12` a missing session is a plain
  `Error`, which the error route answers with 500 (`src/http-error.js:22-25`).
  `src/api.js:68-75` rejects the same case with 401 `EBADSESSION`. The
  program's tests expect 401 when a token is reused after logout
  (`test/index.js:136-149`); of the two variants, only `src/api.js` gives
  that status.
- A missing token makes `jwt.verify` throw in `src/create-validate-token.js:5`.
  That is a library error, not an HTTPError, so the error route answers
  500. The tests expect 401 `EBADTOKEN` (`test/index.js:157-170`), which is
  what `src/api.js:63-66` gives.
- With the empty store, logging out twice succeeds. The store never
  forgets a session (`Lifecycle.App.Logout`).
- The local-CouchDB fallback of `src/parse-options.js:30-41` applies only
  when there is no URL at all. `url.parse` reports a missing hostname or
  protocol as null, and lodash `defaults` fills only undefined properties.
  So a URL without a host, such as `/db`, keeps no host and no protocol,
  and `url.format` then writes no `//`: its `baseUrl` is `/db/`
  (`ParseOptions.HostlessStringOption`).
- A string `algorithms` option is not an array, so the signer falls back on
  HS256 (`src/create-generate-token.js:4`), while `jwt.verify` searches the
  string as text. With `algorithms: "HS512"` the server rejects every token
  it issues (`TokenIssue.IssuedTokenRejected`).

## Model

| member | source | states |
|---|---|---|
| JsValues.Defaults | src/parse-options.js:24 | lodash `defaults` copies exactly the keys whose target value is undefined and keeps every other value |
| Jwt.Sign | src/create-generate-token.js:7 | signing records the algorithm and key; `iat` is the signing time; `exp` is `iat + expiresIn` when an expiry is configured and absent otherwise |
| Jwt.Decode | src/create-generate-token.js:8 | decoding yields a payload exactly for a signed token, and that payload is the signed one; a garbled or missing token decodes to null |
| Jwt.VerifyAccepts | src/create-validate-token.js:5 | verification accepts a token iff it decodes, its algorithm is accepted, its key matches, `nbf` has passed and (unless ignored) it has not expired; the accepted payload is the decoded one |
| Jwt.ContainsAt | src/create-validate-token.js:5 | the text search `verify` applies to a string `algorithms` (`indexOf`) finds a name wherever it occurs at some offset |
| Jwt.ContainsOffset | src/create-validate-token.js:5 | the text search finds a name only where it occurs at some offset |
| Jwt.IgnoreExpirationOnlySkipsExpiry | src/create-validate-token.js:4-5 | `ignoreExpiration` switches off only the expiry check: an accepted token stays accepted, a token rejected only as expired becomes accepted, and no expiry error remains |
| Jwt.DecodeSign | src/create-generate-token.js:7-8 | round trip: decoding a signed token returns the signed name, roles and session |
| Jwt.VerifySign | src/create-validate-token.js:5 | a token signed with the key under an accepted algorithm verifies to its payload until `exp`, and after that only with expiry ignored |
| HttpError.NewHTTPError | src/http-error.js:4-10 | the status is kept; a falsy message becomes the standard reason phrase for the status; a falsy code becomes `EERROR` |
| HttpError.ToString | src/http-error.js:16-18 | the text is `[HTTPError] `, the status digits, `: ` and the message (`undefined` when there is none), with its exact length |
| HttpError.ToStringShowsStatus | src/http-error.js:16-18 | the status can be read back from the digits of the text form |
| HttpError.Route | src/http-error.js:20-31 | no error passes control to `next`; an HTTPError is answered with its own status and `{error: true, message, status, code}`; any other error becomes a 500 `Internal Server Error` with code `EERROR` |
| MemoryStore.FreshStoreHoldsNothing | src/memory-store.js:1-19 | a new store holds no session except the names a plain object inherits from `Object.prototype` |
| MemoryStore.AddThenExists | src/memory-store.js:13-19 | after `add(s)`, `exists(s)` is true, and adding `s` again leaves the same dictionary |
| MemoryStore.RemoveThenAbsent | src/memory-store.js:17-23 | after `remove(s)`, `exists(s)` is false unless `s` is an inherited name; removing an absent id changes nothing and does not fail |
| MemoryStore.OtherIdsUnaffected | src/memory-store.js:13-23 | `add(s)` and `remove(s)` leave the existence of every other id unchanged |
| MemoryStore.MemoryStore.constructor | src/memory-store.js:2-3 | the dictionary starts empty, so only inherited names exist |
| MemoryStore.MemoryStore.Add | src/memory-store.js:13-15 | the dictionary gains `sid` (writing `__proto__` is ignored), `sid` exists afterwards, and no other id changes |
| MemoryStore.MemoryStore.Remove | src/memory-store.js:21-23 | the dictionary loses `sid`, `sid` exists afterwards iff it is inherited, and no other id changes |
| EmptyStore.EmptyStore.Add | src/empty-store.js:8 | `add` has no effect and cannot fail |
| EmptyStore.EmptyStore.Exists | src/empty-store.js:9 | `exists` is true for every id, including ids never added |
| EmptyStore.EmptyStore.Remove | src/empty-store.js:10 | `remove` cannot fail, and the id still exists afterwards |
| RedisStore.Prefix | src/redis-store.js:6 | the prefix is `jwt:` when the option is null or undefined, and otherwise the option as given, the empty string included |
| RedisStore.RedisStore.GetKey | src/redis-store.js:66-68 | the key is the prefix followed by the id |
| RedisStore.RedisStore.GetKeyInjective | src/redis-store.js:66-68 | distinct ids under one prefix have distinct keys |
| RedisStore.RedisStore.NewEntry | src/redis-store.js:73-83 | the stored value is the time of the call, with the TTL exactly when `ttl` is truthy |
| RedisStore.RedisStore.Add | src/redis-store.js:70-85 | on success the key holds the new entry, written with SETEX when a TTL is set and with SET otherwise; a client error rejects and writes nothing |
| RedisStore.RedisStore.Exists | src/redis-store.js:87-94 | resolves true iff the key is present; a client error rejects |
| RedisStore.RedisStore.Remove | src/redis-store.js:96-103 | resolves true iff a key was deleted and false for an absent id; the key is gone afterwards; a client error rejects and deletes nothing |
| CouchStore.DatabaseUrl | src/couch-store.js:7-12 | the database URL fails exactly when option normalisation fails; otherwise it is the normalised `baseUrl` followed by `db` |
| CouchStore.DatabaseUrlDefault | src/couch-store.js:7-12 | options that name no database give the base URL, which ends in `/`, followed by `jwt_sessions` |
| CouchStore.DatabaseUrlWithoutOptions | src/couch-store.js:7-12 | with null or undefined options the database is `http://localhost:5984/jwt_sessions` |
| CouchStore.DefaultOptions | src/couch-store.js:7-9 | null or undefined options normalise to exactly the local CouchDB's base URL and `db: "jwt_sessions"` |
| CouchStore.CouchStore.Get | src/couch-store.js:35-42 | `_get` yields the matching row's revision, or null exactly when the id has no document; a database error rejects |
| CouchStore.CouchStore.Exists | src/couch-store.js:44-48 | `exists` is true iff `_get` found a document |
| CouchStore.CouchStore.Add | src/couch-store.js:25-33 | an existing id writes nothing; an absent id gets a document with that `_id` and `created` time under a new revision; a database error rejects |
| CouchStore.CouchStore.Remove | src/couch-store.js:50-54 | an existing id is deleted under the revision just read and the call resolves; an absent id rejects with a TypeError about `.rev` of null; the outcome of the delete does not reach the caller |
| Stores.SessionKey | src/create-validate-token.js:7 | the store is asked about the token's `session` claim, and a missing claim arrives as the key `undefined` |
| Stores.SessionStore.Exists | src/create-validate-token.js:7 | on every backend, `exists` rejects iff the backend is unreachable and otherwise tells whether the session is live |
| Stores.SessionStore.Add | src/generate-session.js:6 | on every backend, `add` succeeds iff the backend is reachable; success makes the id live; failure changes nothing; other ids never change |
| Stores.SessionStore.Remove | src/create-logout.js:6 | on every backend, `remove` succeeds iff the backend is reachable (CouchDB also needs the id to exist); success makes the id absent wherever the backend honours removal; other ids never change |
| SessionId.Hex | src/generate-session.js:4 | the hex text has two characters per byte, each a lowercase hex digit |
| SessionId.HexInjective | src/generate-session.js:4 | distinct byte strings give distinct ids |
| SessionId.SessionIdShape | src/generate-session.js:4 | a session id from 16 bytes has exactly 32 lowercase hex characters |
| SessionId.HexIsNotInherited | src/generate-session.js:4 | no 16-byte session id is a name the memory store inherits, so the memory store can always forget it |
| SessionId.LongNameNotInherited | src/memory-store.js:18 | a key longer than 20 characters is never an inherited name |
| TokenIssue.SigningAlgorithm | src/create-generate-token.js:4 | the algorithm is `algorithms[0]` when `algorithms` is an array (undefined for an empty one), and `HS256` otherwise |
| TokenIssue.GenerateToken | src/create-generate-token.js:6-11 | the signed claims are exactly name, roles and session; the result is what decoding the token gives, with the token attached; `iat` is now and `exp` comes from `expiresIn` |
| TokenIssue.SigningAlgorithmAccepted | src/create-generate-token.js:4 | the server accepts its own signing algorithm iff `algorithms` is falsy, a non-empty array, or a string that contains `HS256` (a string is searched as text) |
| TokenIssue.IssuedTokenVerifies | src/create-generate-token.js:3-11 | under those configurations, an issued token verifies to its own payload with the server's secret and algorithms until it expires, and after that only with expiry ignored |
| TokenIssue.StringAlgorithmNotSelfVerifying | src/create-generate-token.js:4 | `algorithms: "HS512"` is not a configuration under which the server verifies its own tokens |
| TokenIssue.IssuedTokenRejected | src/create-generate-token.js:3-11 | under any other configuration, every token the server issues fails verification with `JsonWebTokenError` |
| ValidateToken.ValidateToken | src/create-validate-token.js:4-14 | verification runs first, and its failure is returned without consulting the store; then the store is asked about the `session` claim; a live session returns the verified payload, a missing one fails with the plain error `Invalid Session.`, and a store failure propagates |
| RefreshRoles.DefaultRefreshRoles | src/create-refresh-roles.js:3-15 | a user document gives its roles; an error response falls back on the existing roles; a failure without response is rethrown |
| RefreshRoles.RefreshRoles | src/create-refresh-roles.js:17-25 | an unset option selects the default refresher; a function decides the roles; any other value keeps the existing roles |
| RefreshRoles.FailsOpen | src/create-refresh-roles.js:3-25 | refreshing fails only when a configured function fails or when the default refresher gets no response; when the default does not use a user document, the roles are the existing ones |
| Lifecycle.GenerateSession | src/generate-session.js:3-9 | the id is the 32-character hex of the random bytes and is live in the store on return; a failing `add` rejects, returns no id and changes nothing; no other id changes |
| Lifecycle.App.Login | src/create-login.js:4-8 | an authentication failure is returned and adds no session; otherwise a new session is added and the token is issued for the provider's user context and that session; the token validates at once unless the configuration makes it unverifiable or already expired; on a backend other than the empty store, its session can be revoked |
| Lifecycle.App.Logout | src/create-logout.js:4-8 | validates with expiry ignored; a failure changes nothing; on success the validated payload is returned and its session removed, so the same token then fails validation with `Invalid Session.` wherever removal is honoured, while with the empty store it still validates; no other session changes |
| Lifecycle.App.Renew | src/create-renew.js:4-8 | validates with expiry ignored; a validation or refresh failure is returned; otherwise the new token keeps the name and session, carries exactly the refreshed roles, is issued now and decodes to the returned payload; the store is not modified |
| Api.Authenticate | src/api.js:27-44 | a session body yields the user context; a 401 becomes HTTPError 401 `EBADAUTH`, any other error status that status with `ECOUCH` (message from the provider's reason or the reason phrase); no response rethrows |
| Api.VerifyFailure | src/api.js:84-90 | `TokenExpiredError` maps to 401 `EEXPTOKEN`, `JsonWebTokenError` to 401 `EBADTOKEN`, and any other verify error is ignored |
| Api.ValidateToken | src/api.js:59-95 | an undecodable token fails with 401 `EBADTOKEN`; a falsy session claim with 401 `EBADSESSION` `Missing session id.`; a result carries the decoded payload with the token attached |
| Api.SessionCheckedFirst | src/api.js:68-77 | a decodable token whose session is not live fails with `EBADSESSION` whatever its signature or expiry, and a store failure is returned before verification |
| Api.VerifierDecides | src/api.js:78-94 | once the session is live, an expiry error becomes `EEXPTOKEN`, a library error `EBADTOKEN`, and the token is accepted iff it verifies or fails only on `nbf` |
| Api.NotYetValidAccepted | src/api.js:79-90 | a properly signed token whose `nbf` is still in the future is accepted, although the verifier rejects it |
| Api.VariantsAgreeOnGoodTokens | src/api.js:59-95 | for a token that verifies and names a live session, both validation variants return its payload |
| Api.VariantsDisagreeOnForgedTokens | src/api.js:68-78 | for a token signed with a wrong key whose session is not live, the `create-*` variant reports the verifier's error and this one `EBADSESSION` |
| Api.DefaultRefreshRoles | src/api.js:6-16 | a user document gives its roles, and every failure, transport included, keeps the existing roles |
| Api.RefreshRolesWith | src/api.js:97-103 | an unset option selects this default refresher; a function decides the roles; any other value keeps the existing roles |
| Api.RefreshVariantsDiffer | src/api.js:6-16 | the two refresh policies differ exactly when the default refresher is in use and the provider gives no response |
| Api.Api.Login | src/api.js:105-109 | an authentication failure is returned and adds no session; otherwise the token is issued for the session just added, and it passes this variant's validation at once unless the configuration makes it unverifiable or already expired |
| Api.Api.Logout | src/api.js:111-115 | validates with expiry enforced; a failure changes nothing; on success the validated data is returned and its session removed, after which the same token fails with `EBADSESSION` wherever removal is honoured |
| Api.Api.Renew | src/api.js:117-121 | validates with expiry enforced; a validation or refresh failure is returned; otherwise the new token keeps name and session, carries the refreshed roles and is issued now |
| JsText.TrimStart | src/extract-jwt-from-header.js:4 | removes exactly the leading JavaScript white space |
| JsText.TrimEnd | src/extract-jwt-from-header.js:4 | removes exactly the trailing JavaScript white space |
| JsText.Trim | src/extract-jwt-from-header.js:4 | the result neither starts nor ends with white space |
| JsText.TrimKeepsMiddle | src/extract-jwt-from-header.js:4 | the trimmed text is a slice `s[i..j]` of the input with only white space before `i` and from `j` on |
| JsText.TakeLine | src/routes.js:42 | `.*` takes the longest prefix without a line terminator |
| JsText.BearerMatch | src/routes.js:42 | the match succeeds iff the text starts with `Bearer` (anchored, case-sensitive); the group is the rest after white space, up to the line's end |
| JsText.TrimmedText | src/extract-jwt-from-header.js:7 | a text that neither starts nor ends with white space is its own trim |
| JsText.TrimIdempotent | src/extract-jwt-from-header.js:4-7 | trimming twice is trimming once |
| JsText.BearerTokenIsTrimmed | src/extract-jwt-from-header.js:4-7 | the captured token never starts with white space, and from a trimmed single-line header it never ends with white space |
| JsText.BearerThenToken | src/routes.js:42 | `Bearer`, any white space and a token capture the token; no space is required |
| ExtractJwt.Extract | src/extract-jwt-from-header.js:3-15 | an empty or all-white-space header leaves `req.jwt` unset; a non-`Bearer` header throws; an empty capture leaves `req.jwt` unset; any other capture sets it |
| ExtractJwt.ExtractJwtFromHeader | src/extract-jwt-from-header.js:3-15 | when the parse throws, `next` is not called and `req.jwt` is unchanged; otherwise `req.jwt` is set as decided and `next` is called once |
| ExtractJwt.BearerTokenExtracted | src/extract-jwt-from-header.js:7-10 | `Bearer` followed by optional white space and a token sets `req.jwt` to the token |
| ExtractJwt.BareBearerHeader | src/extract-jwt-from-header.js:9 | a header that is just `Bearer` leaves `req.jwt` unset |
| ExtractJwt.ForeignHeaderThrows | src/extract-jwt-from-header.js:7 | a non-empty header that does not start with `Bearer` throws |
| Routes.Extract | src/routes.js:46-55 | an empty or all-white-space header leaves `req.jwt` unset; otherwise `req.jwt` is the match group when there is one, including the empty group of a bare `Bearer` |
| Routes.ExtractJwtFromHeader | src/routes.js:46-55 | `req.jwt` is set exactly when the header matched, and `next` is called exactly once in every case |
| Routes.VariantsCompared | src/routes.js:46-55 | the two extractors agree except on a bare `Bearer` (empty token here, none there) and a foreign header (ignored here, an exception there) |
| Routes.Info | src/routes.js:2-11 | `info` validates through the src/api.js validation with expiry ignored: it never reports `EEXPTOKEN`, an undecodable token is `EBADTOKEN`, and an accepted token yields its decoded payload; InfoIgnoresExpiry relates it to validation with expiry enforced |
| Routes.InfoIgnoresExpiry | src/routes.js:2-11 | `info` never reports an expired token: it answers like validation with expiry enforced, except that where that reports `EEXPTOKEN` it succeeds |
| ParseOptions.Split | src/parse-options.js:46 | `split` yields at least one piece, no piece holds the separator, and joining the pieces gives back the text |
| ParseOptions.SplitAuth | src/parse-options.js:45-48 | `u` without a colon becomes `{username: u, password: ""}`; otherwise the user name is the text before the first colon and the password is the text after it up to the next colon or the end; neither part holds a colon |
| ParseOptions.WithTrailingSlash | src/parse-options.js:52 | the result ends in `/` and adds one only when it is missing |
| ParseOptions.Host | src/parse-options.js:51 | `url.format` writes a host exactly when there is a non-empty hostname |
| ParseOptions.Format | src/parse-options.js:51 | the text starts with the protocol and its colon, followed by `//` only when the URL had slashes or has a host under an absent or slashed protocol; without `//` it is protocol, host and path as they are |
| ParseOptions.HostlessPath | src/parse-options.js:51 | a URL that is only a path formats as that path |
| ParseOptions.Start | src/parse-options.js:7-17 | null or undefined become `{}`, a string becomes the URL, an object is copied, and any other kind fails |
| ParseOptions.Normalise | src/parse-options.js:4-52 | a bad option kind fails; a result has a string `baseUrl` ending in `/` |
| ParseOptions.WithDefaults | src/parse-options.js:54 | `defs` fill in exactly the options that are still undefined; every defined option, `baseUrl` included, is kept; the keys are those of both |
| ParseOptions.ParseOptions | src/parse-options.js:4-55 | fails exactly when normalisation fails, with the object-or-string error for a bad option kind; a result has a string `baseUrl` ending in `/` and every key of `defs` |
| ParseOptions.NormaliseWithoutOptions | src/parse-options.js:7-52 | null or undefined options normalise to nothing but `baseUrl: "http://localhost:5984/"` |
| ParseOptions.WithAuthAndBase | src/parse-options.js:43-52 | the URL's auth replaces the option's; an auth string becomes the username/password record; `baseUrl` is the formatted URL without credentials; other keys are kept |
| ParseOptions.LocalCouchUrl | src/parse-options.js:31-41 | with no URL, the fallback parts (`http:`, `localhost`, port 5984) format as `http://localhost:5984/` |
| ParseOptions.NoUrlMeansLocalCouch | src/parse-options.js:20-41 | without a URL, `baseUrl` is `http://localhost:5984/` |
| ParseOptions.StringOptionIsUrl | src/parse-options.js:8-10 | a string option is parsed as the URL; `baseUrl` comes from its parts without credentials, and its credentials become the auth record |
| ParseOptions.HostlessStringOption | src/parse-options.js:20-52 | a string option that is only a path gets no local-CouchDB host: its `baseUrl` is the path with a `/` appended |
| ParseOptions.OwnOptionsKept | src/parse-options.js:16-54 | the caller's own defined options win over the query and over `defs`; only `auth` and `baseUrl` are rewritten |
| ParseOptions.SplitAuthPair | src/parse-options.js:46-47 | an auth string `u:p` whose parts hold no colon becomes exactly `{username: u, password: p}` |
| ParseOptions.SplitAuthTruncatesPassword | src/parse-options.js:46-47 | for `user:head:tail` the password is only `head` |
| ParseOptions.SplitCredentials | src/get-couch-options.js:5 | splitting at the first colon loses nothing: joining gives back the auth text; no colon means no password |
| ParseOptions.CredentialsRoundTrip | src/get-couch-options.js:5 | splitting joined credentials gives them back |
| CouchOptions.GetCouchDbOptionsAsWritten | src/get-couch-options.js:3-14 | the call fails with a TypeError iff the URI has no credentials; otherwise `baseUrl` is protocol, `//` and host, the user name is the auth text up to the first colon, and the password is present iff there is a colon and is the text after it up to the next colon or the end |
| CouchOptions.AsWrittenTruncatesPassword | src/get-couch-options.js:5 | as written, auth `user:head:tail` gives the password `head` |
| CouchOptions.DefaultUriRejected | src/get-couch-options.js:3-5 | the default URI has no credentials, so the call without an argument fails |
| CouchOptions.GetCouchDbOptions | src/get-couch-options.js:3-14 | repaired reading: no credentials for a URI without them, the full credentials otherwise, and the same `baseUrl` |
| CouchOptions.RepairAgrees | src/get-couch-options.js:3-14 | where the source succeeds on credentials with at most one colon, the repaired reading gives the same options |
| CouchOptions.LocalBaseUrl | src/get-couch-options.js:10 | the protocol `http:` and the host `localhost:5984` give back the default URI |
| CouchOptions.DefaultUriAccepted | src/get-couch-options.js:3 | the repaired reading turns the default URI into `http://localhost:5984` without credentials |
| ResponseUtils.DataObject | src/create-generate-token.js:8-10 | the data object holds only payload claims and the token: the name, the roles as a list, `iat`, and `session`, `exp`, `nbf` and the token exactly when present |
| ResponseUtils.DateOf | src/response-utils.js:8-9 | seconds become a date at seconds × 1000 milliseconds; a missing claim makes an invalid date |
| ResponseUtils.DefaultTransform | src/response-utils.js:4-11 | name and roles are nested under `userCtx`; session and token pass through; `iat` and `exp` become `issued` and `expires` |
| ResponseUtils.TransformedTimes | src/response-utils.js:4-11 | for a token payload, `userCtx` is exactly the payload's name and roles, `issued` is `iat` × 1000, `expires` is `exp` × 1000 or an invalid date, and the session passes through |
| ResponseUtils.Ok | src/response-utils.js:15-32 | JSON is chosen whenever acceptable, with `ok: true` that data cannot override and every other transformed field; else `application/jwt` sends exactly `data.token`; else a 406 HTTPError |
| ResponseUtils.NotAcceptable | src/response-utils.js:31 | a client accepting neither type gets a 406 `Not Acceptable` error response |
| ResponseUtils.JwtReplyIsToken | src/response-utils.js:27-29 | the `application/jwt` body is the token the operation attached |
| AppConfig.OptionFields | src/index.js:23-34 | destructuring fails exactly for null options; undefined options become `{}` and an object gives its own properties |
| AppConfig.Setting | src/index.js:24-34 | a default replaces a property only when it is undefined |
| AppConfig.ResolveStore | src/index.js:42-52 | `couch` selects the CouchDB store; `memory` or no type selects the memory store; another string names a module; a function is the factory; anything else fails with a configuration error |
| AppConfig.SplitSession | src/index.js:39-40 | for an object `session`, the store type is exactly `session.store` and the options passed on are exactly `session` without `store`; a null `session` fails; any other value has no store type and no options |
| AppConfig.AfterCreateApp | src/index.js:36-40 | once the secret check passes, the caller's `session` object loses `store` and nothing else in the caller's options changes; before it, the options are untouched |
| AppConfig.SecondCreateAppUsesMemoryStore | src/index.js:39-45 | a second `createApp` with the same options object builds the memory store, whatever store the first call chose |
| AppConfig.CouchUri | src/index.js:55 | an undefined `couchdb` means the default URI and a string is used as given |
| AppConfig.Configure | src/index.js:23-55 | succeeds iff the options destructure, the secret is truthy, the session splits, the store type resolves and `couchdb` is a string or undefined; a falsy secret fails with `Missing JWT secret.`; a result holds each setting from its own option or its default (`['HS256']`, `5m`, `/`, `true`), the given secret, transform and refresher, the store factory resolved from `session.store`, `session` without `store`, and the URI read from `couchdb` |
| AppConfig.CreateAppAsWritten | src/index.js:55 | as written, the provider options come after the configuration and fail with the null-auth TypeError iff the provider URI has no credentials; on success they are exactly `GetCouchDbOptionsAsWritten` of the configured URI |
| AppConfig.CreateApp | src/index.js:23-55 | with the repaired provider options, `createApp` fails only where the configuration fails; the provider options carry the URI's base URL, and credentials iff the URI has them |
| AppConfig.RepairedAppExtends | src/index.js:55 | wherever the source builds a configuration, the repaired reading builds one with the same options and provider base URL |
| AppConfig.SecretOnly | src/index.js:24-36 | with only a secret: algorithms `['HS256']`, expiry `5m`, endpoint `/`, error handling on, the memory store, no session options, and no provider URI, so the default one |
| AppConfig.SecretOnlyAsWrittenThrows | src/index.js:55 | as written, `createApp` with only a secret throws the null-auth TypeError, because the default provider URI has no credentials |
| AppConfig.SecretOnlyRepaired | src/index.js:55 | with the repair, `createApp` with only a secret uses the local CouchDB `http://localhost:5984` without credentials |
| AppConfig.SecretCheckedFirst | src/index.js:36 | a missing secret is reported, in both readings, even when the store type is unusable |
| AppConfig.Unmatched | src/index.js:92-94 | with `handleErrors` an unmatched request is answered 404 `Not Found`; without it the request is passed on |

## Left out

- JWT cryptography and serialisation (HMAC, base64url, the compact form) are not modelled. A token is the value it encodes. So the model does not connect the bearer text a header yields to the token value the operations receive.
- Jwt.Verify: only the checks this server can trigger are modelled: well-formedness, algorithm, key, `nbf` and `exp`. Audience, issuer and clock tolerance are not.
- `ms` duration parsing of `expiresIn` and of the Redis `ttl` is not modelled. `expiresIn` is a number of seconds. The Redis store takes the value handed to SETEX as a parameter.
- Redis TTL lapses are not modelled: an entry stays until it is deleted. Connection set-up is also left out (client creation, AUTH, SELECT on reconnect, readiness).
- PouchDB construction and `allDocs` with an undefined key are not modelled.
- Network I/O is replaced by parameters: the identity provider's answers to `/_session` and to the user-document lookup, and the Redis and CouchDB faults. The request URLs and the `Authorization` header of the role lookup are not modelled.
- `crypto.randomBytes` and `Date.now` are parameters.
- Express wiring is not modelled: route mounting, body parsing, the setup promise, the route handlers other than `info`, and the installation of `res.ok` on the response. The thin route files (`src/*-route.js`, `src/login.js`, `src/info.js`, `src/renew.js`, `src/logout.js`), `src/cli.js` and `src/help.js` are not part of this model.
- Console warnings of the store constructors are not modelled.
- Promise interleaving (such as renew racing logout) is not modelled. Each operation is one sequential step.
- `url.parse` is a parameter. `ParseOptions.Format` models `url.format` on the parts left after the omissions, including the rule for `//`. It does not model the escaping of `#` and `?` in the path.
- Jwt.Algorithms: an `algorithms` option that is truthy but neither an array nor a string (a number or an object) is not modelled. `jwt.verify` would throw a TypeError on it. An array is taken to hold strings.
- AppConfig.AfterCreateApp: the `delete` in place on the caller's `session` object is modelled by its effect on the caller's options value, not as a mutation of a shared object.
- ParseOptions.Start: an array option is read as an empty object. The source would decorate the array itself. Cloning is implicit, because values are immutable.
- ExtractJwt.NullMatch: the text of the TypeError thrown on a null match is the runtime's, and is not modelled.
- AppConfig.CreateApp: module loading (`require(name)`) and calling the store factory are not modelled; only the chosen factory is recorded. `AppConfig.CreateAppAsWritten` reads the `couchdb` option as the source does; `AppConfig.CreateApp` reads it with the repaired `CouchOptions.GetCouchDbOptions` (see Findings).
- ResponseUtils.DateOf: a claim that is neither a number nor missing becomes an invalid date; JavaScript would coerce `true`, `"5"` or `[]` to a valid one. `DataObject` only ever passes a number or a missing claim, so the server's answers are unaffected.
- JsValues.Value: numbers are integers. NaN and fractions are not used by the option handling modelled here.

## Findings

| source | as written | input that shows it | evidently intended | confidence | as-written member | corrected member |
|---|---|---|---|---|---|---|
| src/get-couch-options.js:3-5 | `parsed.auth.split(':')` runs without a null check | `getCouchDbOptions()` with its own default `http://localhost:5984`, or `http://localhost:16392` as the test server passes it: `url.parse` reports `auth` as null, so the call throws a TypeError | a URI without credentials gives options without credentials | not executed; high | CouchOptions.DefaultUriRejected | CouchOptions.GetCouchDbOptions |
| src/parse-options.js:46-47 | the password is the second piece of `auth.split(":")` | auth `user:pa:ss` (for example from a percent-encoded colon in the password) gives the password `pa` | the password is everything after the first colon | not executed; medium | ParseOptions.SplitAuthTruncatesPassword | ParseOptions.SplitCredentials |
