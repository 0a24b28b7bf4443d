# JWT authentication middleware for go-json-rest, in Dafny

This project models the middleware's own logic in `auth_jwt.go`:

- the start-up checks and defaults that `MiddlewareFunc` applies;
- the Authorization header format and the signing-algorithm check of `parseToken`;
- the claims that `LoginHandler` and `RefreshHandler` issue;
- the refresh window;
- the per-request gate of `middlewareImpl`;
- `unauthorized` and `ExtractClaims`.

Time is an integer number of seconds, `now`, passed to every operation.
The JWT library (jwt-go) is not part of this model. It appears as a `Library` record of three total functions: `decode` (compact form to declared method and claims), `verify` (signature and expiry with a key at an instant) and `sign`. Nothing is assumed about them, except in `Middleware.LoginThenGate`, which states its round-trip hypothesis about the library explicitly.

Modules, leaf first:

- `Wrappers`: `Option` and `Result`.
- `Text`: `strings.SplitN(s, " ", 2)`.
- `Claims`: claim values, login claims, refreshed claims, the refresh window, chains of refreshes.
- `Http`: the request (Authorization header, decoded login body, `REMOTE_USER`/`JWT_PAYLOAD` environment), responses, `unauthorized`, `ExtractClaims`.
- `Config`: the user's settings, the validated configuration, `MiddlewareFunc`'s checks.
- `Token`: signing-method lookup, header parsing, the key callback, `parseToken`.
- `Middleware`: the gate, the login handler and the refresh handler.

Where the code and its comments disagree, the model follows the code:

- The key check is `Key == nil`. An empty but non-nil key is accepted: the field comment's "Required" (auth_jwt.go:28) is enforced only as non-nil.
- The header check splits at the first space only. `Bearer a b` is not rejected by the header check: the token text `a b` goes to the library, which is left to reject it.
- The field comment says MaxRefresh 0 means "not refreshable" (auth_jwt.go:37), but the code has no such branch: a token without `orig_iat` makes the type assertion at auth_jwt.go:201 panic. The model makes "the verified token carries a numeric `orig_iat`" a precondition of `Middleware.Refresh`. `Claims.LoginWithoutRefreshHasNoOrigIat` shows when that precondition fails.
- Login writes its payload before the reserved claims. With refresh disabled, a payload key `orig_iat` therefore survives into the token.

## Model

| member | source | states |
|---|---|---|
| Text.IndexOf | auth_jwt.go:176 | the position found is an occurrence of the separator with none before it; None exactly when the separator does not occur |
| Text.SplitOnce | auth_jwt.go:176 | `SplitN(s, " ", 2)`: one part equal to the input iff there is no space; otherwise two parts that rejoin to the input at a space, the first part free of spaces |
| Text.SplitOnceOfJoin | auth_jwt.go:176 | splitting `head + " " + tail` with no space in `head` gives back exactly `[head, tail]`, whatever `tail` holds |
| Claims.CopyClaims | auth_jwt.go:145-147 | the copy loop writes every source key over the target and keeps the target's other keys: the result's key set is the union and each value comes from the right map |
| Claims.LoginClaims | auth_jwt.go:144-154 | login claims: `id` is the user name and `exp` is now + timeout whatever the payload holds; every other payload key keeps its value; `orig_iat` = now exactly when MaxRefresh != 0; no other keys |
| Claims.LoginClaimsIgnoreReservedPayload | auth_jwt.go:144-154 | reserved keys win: removing `id` and `exp` (and `orig_iat` when refresh is enabled) from the payload does not change the issued claims |
| Claims.LoginWithoutRefreshHasNoOrigIat | auth_jwt.go:152-154 | with MaxRefresh == 0 and no payload `orig_iat` the token has no `orig_iat`; with an empty payload it holds exactly `id` and `exp` |
| Claims.RefreshedClaims | auth_jwt.go:208-216 | refreshed claims have the old key set plus `id`, `exp`, `orig_iat`; non-reserved values and `id` are unchanged (a missing `id` becomes null); `exp` = now + timeout; `orig_iat` is the value read |
| Claims.RefreshedClaimsCompose | auth_jwt.go:210-216 | refreshing twice with the same `orig_iat` equals refreshing once at the later instant |
| Claims.RefreshStep | auth_jwt.go:201-216 | the refresh succeeds iff `now - MaxRefresh <= orig_iat`; then `orig_iat` is carried forward unchanged, `exp` = now + timeout <= orig_iat + MaxRefresh + timeout, and the key set grows only by `id` and `exp` |
| Claims.RefreshWindowInclusive | auth_jwt.go:201-206 | the window boundary is inclusive: `orig_iat == now - MaxRefresh` is accepted, one second earlier is refused |
| Claims.RefreshChain | auth_jwt.go:34-38 | over any sequence of refreshes `orig_iat` never moves, and after at least one refresh `exp` <= orig_iat + MaxRefresh + Timeout |
| Claims.TokenLifetimeBound | auth_jwt.go:34-36 | from a login with MaxRefresh > 0, whatever refreshes follow, `orig_iat` stays the login instant and `exp` never exceeds login + MaxRefresh + Timeout |
| Http.Unauthorized | auth_jwt.go:227-230 | a rejection is status 401 with `WWW-Authenticate: JWT realm=<realm>` and the status text in the `Error` field of a JSON body |
| Http.ExtractClaims | auth_jwt.go:107-114 | the empty map when no payload is in the request environment, the stored claims otherwise; never fails |
| Config.Validate | auth_jwt.go:61-80 | fails iff realm is empty, key is nil or authenticator is unset, reporting the first in that order; otherwise algorithm = given or HS256, timeout = given or 3600 s, authorizator = given or always true, other fields as given |
| Config.ValidateIdempotent | auth_jwt.go:59-80 | applying the checks and defaults to an already validated configuration returns it unchanged |
| Token.GetSigningMethod | auth_jwt.go:182 | a method found by name carries that name and is an HMAC method |
| Token.GetSigningMethodOfName | auth_jwt.go:182 | every HMAC method is found under its own name |
| Token.ParseHeader | auth_jwt.go:170-179 | an empty header gives "Auth header empty"; any other failure is "Invalid auth header"; success means the header is `Bearer `, then the token text |
| Token.ParseHeaderAcceptsBearer | auth_jwt.go:170-179 | a header is accepted iff it starts with `Bearer` and a space, and the token text is everything after that first space |
| Token.KeyFor | auth_jwt.go:181-186 | the key callback either releases the configured key or fails with "Invalid signing algorithm" |
| Token.KeyForIffSameAlgorithm | auth_jwt.go:181-186 | anti-downgrade: the key is released iff the token's declared method is an HMAC method named exactly as the configured algorithm |
| Token.ParseToken | auth_jwt.go:169-187 | a token is accepted iff the header is well formed, the library decodes it, its method matches the configured one and the library verifies it with the configured key; header errors are reported as such |
| Middleware.Gate | auth_jwt.go:85-104 | the request passes iff the token verifies AND the authorizator accepts its `id`; a passed request carries `REMOTE_USER` = id and `JWT_PAYLOAD` = the claims; every failure is one 401 with the realm challenge and the failing check's text; a request denied by the authorizator still carries `REMOTE_USER` and `JWT_PAYLOAD`, one refused earlier is left as it came |
| Middleware.GateRejectsBadHeader | auth_jwt.go:86-91 | a request without a `Bearer ` header is refused with the realm challenge and "Auth header empty" or "Invalid auth header" |
| Middleware.GateRejectsOtherAlgorithm | auth_jwt.go:181-186 | a token declaring any method other than the configured one is refused with "Invalid signing algorithm" |
| Middleware.ExtractClaimsAfterGate | auth_jwt.go:93-96 | a handler behind the gate reads back exactly the verified claims and the verified subject |
| Middleware.ExtractClaimsAfterDenial | auth_jwt.go:95-100 | a request the authorizator denies is answered "Permission Denied" yet still carries the verified claims and subject in its environment |
| Middleware.Login | auth_jwt.go:128-160 | a token is issued iff the body decodes, the authenticator accepts and signing the login claims succeeds, and the token is that signature; every other outcome is a 401 with the realm challenge |
| Middleware.LoginThenGate | auth_jwt.go:150-151 | if the library round-trips the issued token, presenting it identifies the user who logged in, with `exp` one timeout after login, and passes exactly when the authorizator agrees |
| Middleware.Refresh | auth_jwt.go:192-225 | a new token is issued iff the presented token verifies, its `orig_iat` is within the window and signing succeeds, and it is the signature of the refreshed claims; every other outcome is a 401 with the realm challenge |
| Middleware.RefreshKeepsOrigIat | auth_jwt.go:201-216 | a successful refresh carries `orig_iat` forward, sets `exp` to now + timeout within orig_iat + MaxRefresh + timeout, and keeps every non-reserved claim |

## Left out

- Token encoding and decoding, HMAC signing, and the signature and `exp` checks: these belong to jwt-go and are abstract functions of the `Library` record.
- The library's non-HMAC signing methods (RSA, ECDSA, ...): `Token.GetSigningMethod` knows only the HMAC family. The field comment (auth_jwt.go:24) allows HS256, HS384 and HS512 only; with another name the library registers (RS256 with a PEM public key), the code would verify such tokens, while the model refuses every token under that configuration.
- The exact text of errors raised inside the library: it is carried as an opaque string.
- JSON body decoding, the response writer and `WriteJson`: the login body is a decoded `Option<Credentials>` and a response is a value.
- `log.Fatal` process termination: it becomes a `ConfigError` result.
- The authenticator, authorizator and payload callbacks: they are function parameters and are not inspected.
- Middleware.Gate: the Go panic when `id` is missing or not a string becomes the precondition `VerifiedTokenHasId`.
- Middleware.Refresh: the Go panic when `orig_iat` is missing or not a number becomes the precondition `VerifiedTokenHasOrigIat`.
- Claims.RefreshStep: float64 claim values and the truncating `int64(...)` conversion are not modelled; claim numbers are whole seconds.
- Nanosecond `time.Duration` values and the truncation of `Unix()` are not modelled: instants and durations are whole seconds.
- Claims.RefreshStep: one `now` serves both the window test and the new `exp`, while the code reads the clock at auth_jwt.go:203 and again at auth_jwt.go:215. If a second boundary falls between the two reads, the issued `exp` exceeds `orig_iat + MaxRefresh + Timeout` by the seconds between them; the bound stated here holds for a single read.
- Claims.RefreshChain: the `exp` bound holds for a single clock read per refresh; with the code's two reads it can be exceeded by the seconds elapsed between the window test and the `exp` computation.
- Claims.TokenLifetimeBound: the lifetime bound `MaxRefresh + Timeout` holds for a single clock read per refresh; the code's second read at auth_jwt.go:215 can add the seconds elapsed since the read at auth_jwt.go:203.
- Middleware.Refresh: the window test and the new `exp` use one `now`; the code reads the clock twice (auth_jwt.go:203, auth_jwt.go:215), so its `exp` may lie later by the seconds between the reads.
- Middleware.RefreshKeepsOrigIat: its `exp` bound assumes the single clock read of `Middleware.Refresh`; the code's second read can exceed it by the seconds between the reads.
- Middleware.Login: an algorithm name the JWT library does not register (a typo such as "HS265") passes `Config.Validate`, as it passes auth_jwt.go:64-66, and then `jwt.New` at auth_jwt.go:142 receives a nil method and the login panics, issuing neither a token nor a 401. The model instead hands the name to the abstract signing function, so its 200/401 outcomes are not what the code produces for such a name. The refresh handler cannot reach the same panic, because `Token.KeyFor` already refuses every token when the configured name is unknown.
- Claims.LoginClaims: one `now` is used for both `exp` and `orig_iat`, while the code reads the clock twice and may see two different seconds.
- The unused `ID` field of the login response is not modelled.
- Concurrency: the configuration is immutable after validation, and each request is evaluated independently.
