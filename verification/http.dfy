/** The slice of the HTTP framework the middleware touches: the request it reads
    (Authorization header, login body, request environment), the environment entries
    it sets for downstream handlers, and the responses it writes. */
module Http {
  import opened Wrappers
  import opened Claims

  /** The JSON login body `{"email": ..., "password": ...}`. */
  datatype Credentials = Credentials(username: string, password: string)

  /** The request environment: `REMOTE_USER` and `JWT_PAYLOAD`. */
  datatype Env = Env(remoteUser: Option<string>, payload: Option<Claims>)

  /** `authorization` is the Authorization header, "" when absent; `body` is the decoded
      login body, None when it cannot be decoded. */
  datatype Request = Request(authorization: string, body: Option<Credentials>, env: Env)

  /** `ErrorJson` is `{"Error": message}`, as `rest.Error` writes it; `TokenJson` is `{"token": ...}`. */
  datatype Body = ErrorJson(message: string) | TokenJson(token: string)

  datatype Response = Response(status: int, wwwAuthenticate: Option<string>, body: Body)

  const StatusOK: int := 200
  const StatusUnauthorized: int := 401

  /** The realm challenge every rejection carries. */
  function Challenge(realm: string): string {
    "JWT realm=" + realm
  }

  /** A 401 with the realm challenge and a JSON error body. */
  predicate IsUnauthorized(r: Response, realm: string) {
    r.status == StatusUnauthorized && r.wwwAuthenticate == Some(Challenge(realm)) && r.body.ErrorJson?
  }

  /** `unauthorized`: the challenge header, then a 401 whose JSON body carries the status text under `Error`. */
  function Unauthorized(realm: string, message: string): (r: Response)
    ensures IsUnauthorized(r, realm) && r.body.message == message
  {
    Response(StatusUnauthorized, Some(Challenge(realm)), ErrorJson(message))
  }

  /** A 200 whose JSON body is `{"token": ...}`. */
  function TokenResponse(token: string): Response {
    Response(StatusOK, None, TokenJson(token))
  }

  /** `ExtractClaims`: the claims a passed request carries, the empty map when none. */
  function ExtractClaims(r: Request): (c: Claims)
    ensures r.env.payload.None? ==> c == map[]
    ensures r.env.payload.Some? ==> c == r.env.payload.value
  {
    r.env.payload.GetOr(map[])
  }

  /** The request the middleware hands on: identity and verified claims in the environment. */
  function WithIdentity(r: Request, userId: string, claims: Claims): Request {
    r.(env := Env(Some(userId), Some(claims)))
  }
}
