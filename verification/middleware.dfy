/** The request-level behaviour: the authentication gate every protected request
    passes through, and the login and refresh handlers that issue tokens.
    Time is the parameter `now`, in whole seconds. */
module Middleware {
  import opened Wrappers
  import opened Claims
  import opened Http
  import opened Config
  import opened Token

  /** The gate's verdict: hand the annotated request on, or answer it with a rejection.
      A rejection also carries the request as the gate leaves it (`seen`): the identity
      and claims are written into the request environment before the authorizator is
      consulted, so a denied request keeps them for any outer handler that reads it. */
  datatype Decision = Pass(forwarded: Request) | Reject(response: Response, seen: Request)

  /** The claims name their subject with a string `id`, as every token this middleware issues does. */
  predicate HasStringId(c: Claims) {
    Id in c && c[Id].Str?
  }

  /** Whatever the token the request presents, once it verifies it names its subject with a string. */
  predicate VerifiedTokenHasId(c: Config, lib: Library, req: Request, now: int) {
    var p := ParseToken(c, lib, req.authorization, now);
    p.Success? ==> HasStringId(p.value.claims)
  }

  /** `middlewareImpl`: parse and verify the token, record the subject and claims in the
      request environment, consult the authorizator; any failure is one 401 with the realm
      challenge, and only a request that passes both checks reaches the handler. */
  function Gate(c: Config, lib: Library, req: Request, now: int): (d: Decision)
    requires VerifiedTokenHasId(c, lib, req, now)
    ensures d.Reject? ==> IsUnauthorized(d.response, c.realm)
    ensures d.Pass? <==>
      var p := ParseToken(c, lib, req.authorization, now);
      p.Success? && c.authorizator(p.value.claims[Id].s, WithIdentity(req, p.value.claims[Id].s, p.value.claims))
    ensures d.Pass? ==>
      var p := ParseToken(c, lib, req.authorization, now);
      p.Success? && d.forwarded == WithIdentity(req, p.value.claims[Id].s, p.value.claims)
    ensures d.Reject? && ParseToken(c, lib, req.authorization, now).Failure? ==>
      d.response.body.message == Message(ParseToken(c, lib, req.authorization, now).error) && d.seen == req
    ensures d.Reject? && ParseToken(c, lib, req.authorization, now).Success? ==>
      var claims := ParseToken(c, lib, req.authorization, now).value.claims;
      d.response.body.message == "Permission Denied" && d.seen == WithIdentity(req, claims[Id].s, claims)
  {
    match ParseToken(c, lib, req.authorization, now)
    case Failure(e) => Reject(Unauthorized(c.realm, Message(e)), req)
    case Success(token) =>
      var id := token.claims[Id].s;
      var annotated := WithIdentity(req, id, token.claims);
      if !c.authorizator(id, annotated) then Reject(Unauthorized(c.realm, "Permission Denied"), annotated)
      else Pass(annotated)
  }

  /** A request without a well-formed `Bearer` header never passes, and is told which check failed. */
  lemma GateRejectsBadHeader(c: Config, lib: Library, req: Request, now: int)
    requires !(|req.authorization| >= 7 && req.authorization[..7] == "Bearer ")
    ensures Gate(c, lib, req, now) == Reject(Unauthorized(c.realm,
      if req.authorization == "" then "Auth header empty" else "Invalid auth header"), req)
  {
  }

  /** A token declaring any method other than the configured one never passes. */
  lemma GateRejectsOtherAlgorithm(c: Config, lib: Library, req: Request, now: int)
    requires ParseHeader(req.authorization).Success?
    requires lib.decode(ParseHeader(req.authorization).value).Success?
    requires lib.decode(ParseHeader(req.authorization).value).value.alg.Foreign?
          || MethodName(lib.decode(ParseHeader(req.authorization).value).value.alg) != c.signingAlgorithm
    ensures Gate(c, lib, req, now) == Reject(Unauthorized(c.realm, "Invalid signing algorithm"), req)
  {
  }

  /** A handler behind the gate reads back exactly the verified claims. */
  lemma ExtractClaimsAfterGate(c: Config, lib: Library, req: Request, now: int)
    requires VerifiedTokenHasId(c, lib, req, now)
    requires Gate(c, lib, req, now).Pass?
    ensures ExtractClaims(Gate(c, lib, req, now).forwarded) == ParseToken(c, lib, req.authorization, now).value.claims
    ensures Gate(c, lib, req, now).forwarded.env.remoteUser
         == Some(ParseToken(c, lib, req.authorization, now).value.claims[Id].s)
  {
  }

  /** A request the authorizator denies still carries the verified claims and subject:
      an outer handler reading it after the 401 sees them. */
  lemma ExtractClaimsAfterDenial(c: Config, lib: Library, req: Request, now: int)
    requires VerifiedTokenHasId(c, lib, req, now)
    requires ParseToken(c, lib, req.authorization, now).Success?
    requires Gate(c, lib, req, now).Reject?
    ensures Gate(c, lib, req, now).response.body.message == "Permission Denied"
    ensures ExtractClaims(Gate(c, lib, req, now).seen) == ParseToken(c, lib, req.authorization, now).value.claims
    ensures Gate(c, lib, req, now).seen.env.remoteUser
         == Some(ParseToken(c, lib, req.authorization, now).value.claims[Id].s)
  {
  }

  /** The payload callback's claims, none when no callback is set. */
  function Payload(c: Config, userId: string): Claims {
    match c.payloadFunc
    case None => map[]
    case Some(f) => f(userId)
  }

  /** `LoginHandler`: an undecodable body or rejected credentials give a 401; otherwise the
      login claims are signed and returned, and a signing failure is a 401 too. */
  function Login(c: Config, lib: Library, req: Request, now: int): (r: Response)
    ensures r.status == StatusUnauthorized ==> IsUnauthorized(r, c.realm)
    ensures r.status == StatusUnauthorized || r.status == StatusOK
    ensures r.status == StatusOK <==>
      && req.body.Some?
      && c.authenticator(req.body.value.username, req.body.value.password)
      && lib.sign(c.signingAlgorithm,
                  LoginClaims(Payload(c, req.body.value.username), req.body.value.username, now, c.timeout, c.maxRefresh),
                  c.key).Success?
    ensures r.status == StatusOK ==>
      && r.body.TokenJson?
      && lib.sign(c.signingAlgorithm,
                  LoginClaims(Payload(c, req.body.value.username), req.body.value.username, now, c.timeout, c.maxRefresh),
                  c.key) == Success(r.body.token)
  {
    match req.body
    case None => Unauthorized(c.realm, "Error Reading Login Values")
    case Some(creds) =>
      if !c.authenticator(creds.username, creds.password) then Unauthorized(c.realm, "Not Authenticated")
      else
        var claims := LoginClaims(Payload(c, creds.username), creds.username, now, c.timeout, c.maxRefresh);
        match lib.sign(c.signingAlgorithm, claims, c.key)
        case Failure(_) => Unauthorized(c.realm, "Error creating token")
        case Success(token) => TokenResponse(token)
  }

  /** The library round-trips a token it signed: decoding gives back the configured method
      and the signed claims, and the verdict at `later` is positive. */
  predicate RoundTrips(c: Config, lib: Library, token: string, claims: Claims, later: int) {
    && GetSigningMethod(c.signingAlgorithm).Some?
    && lib.decode(token) == Success(RawToken(GetSigningMethod(c.signingAlgorithm).value, claims))
    && lib.verify(token, c.key, later) == Valid
  }

  /** Login then gate: if the library round-trips the issued token, presenting it as
      `Bearer <token>` at `later` identifies the user who logged in, with `exp` one timeout
      after login, and passes exactly when the authorizator agrees. */
  lemma LoginThenGate(c: Config, lib: Library, req: Request, now: int, later: int, next: Request)
    requires Login(c, lib, req, now).status == StatusOK
    requires next.authorization == "Bearer " + Login(c, lib, req, now).body.token
    requires RoundTrips(c, lib, Login(c, lib, req, now).body.token,
                        LoginClaims(Payload(c, req.body.value.username), req.body.value.username, now, c.timeout, c.maxRefresh),
                        later)
    ensures VerifiedTokenHasId(c, lib, next, later)
    ensures ParseToken(c, lib, next.authorization, later).Success?
    ensures ParseToken(c, lib, next.authorization, later).value.claims[Id] == Str(req.body.value.username)
    ensures ParseToken(c, lib, next.authorization, later).value.claims[Exp] == Num(now + c.timeout)
    ensures Gate(c, lib, next, later).Pass? <==>
      c.authorizator(req.body.value.username,
        WithIdentity(next, req.body.value.username, ParseToken(c, lib, next.authorization, later).value.claims))
  {
    var token := Login(c, lib, req, now).body.token;
    ParseHeaderAcceptsBearer(next.authorization);
    assert ParseHeader(next.authorization).value == token;
    GetSigningMethodOfName(GetSigningMethod(c.signingAlgorithm).value);
  }

  /** Whatever a refresh reads, the presented token carries a numeric `orig_iat`. */
  predicate VerifiedTokenHasOrigIat(c: Config, lib: Library, req: Request, now: int) {
    var p := ParseToken(c, lib, req.authorization, now);
    p.Success? ==> HasOrigIat(p.value.claims)
  }

  /** `RefreshHandler`: parse and verify the presented token; refuse when its `orig_iat` lies
      before `now - maxRefresh`; otherwise sign the refreshed claims. Every refusal is a 401. */
  function Refresh(c: Config, lib: Library, req: Request, now: int): (r: Response)
    requires VerifiedTokenHasOrigIat(c, lib, req, now)
    ensures r.status == StatusUnauthorized ==> IsUnauthorized(r, c.realm)
    ensures r.status == StatusUnauthorized || r.status == StatusOK
    ensures r.status == StatusOK <==>
      var p := ParseToken(c, lib, req.authorization, now);
      && p.Success?
      && WindowOpen(p.value.claims[OrigIat].n, now, c.maxRefresh)
      && lib.sign(c.signingAlgorithm, RefreshStep(p.value.claims, now, c.timeout, c.maxRefresh).value, c.key).Success?
    ensures r.status == StatusOK ==>
      var p := ParseToken(c, lib, req.authorization, now);
      && p.Success?
      && RefreshStep(p.value.claims, now, c.timeout, c.maxRefresh).Some?
      && r.body.TokenJson?
      && lib.sign(c.signingAlgorithm, RefreshStep(p.value.claims, now, c.timeout, c.maxRefresh).value, c.key)
         == Success(r.body.token)
  {
    match ParseToken(c, lib, req.authorization, now)
    case Failure(e) => Unauthorized(c.realm, Message(e))
    case Success(token) =>
      match RefreshStep(token.claims, now, c.timeout, c.maxRefresh)
      case None => Unauthorized(c.realm, "Error Creating Token")
      case Some(claims) =>
        match lib.sign(c.signingAlgorithm, claims, c.key)
        case Failure(_) => Unauthorized(c.realm, "Error Creating Token")
        case Success(token) => TokenResponse(token)
  }

  /** A refreshed token keeps the presented token's `orig_iat` and claims and expires no
      later than `maxRefresh + timeout` after that `orig_iat`. */
  lemma RefreshKeepsOrigIat(c: Config, lib: Library, req: Request, now: int)
    requires VerifiedTokenHasOrigIat(c, lib, req, now)
    requires Refresh(c, lib, req, now).status == StatusOK
    ensures var presented := ParseToken(c, lib, req.authorization, now).value.claims;
            var renewed := RefreshStep(presented, now, c.timeout, c.maxRefresh).value;
            && renewed[OrigIat] == presented[OrigIat]
            && renewed[Exp] == Num(now + c.timeout)
            && now + c.timeout <= presented[OrigIat].n + c.maxRefresh + c.timeout
            && forall k :: k in presented && !Reserved(k) ==> k in renewed && renewed[k] == presented[k]
  {
  }
}
