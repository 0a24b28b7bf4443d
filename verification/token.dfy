/** Reading a bearer token off a request: the Authorization header format, the
    signing-method lookup, the key callback that enforces the configured algorithm,
    and `parseToken`, which strings them together around the JWT library. */
module Token {
  import opened Wrappers
  import opened Claims
  import opened Text
  import opened Config

  /** A signing method a decoded token can declare. The HMAC family is the one this
      middleware can be configured with; `Foreign` is any other method the library
      knows (RSA, ECDSA, ...). */
  datatype Method = HS256 | HS384 | HS512 | Foreign(name: string)

  function MethodName(m: Method): string {
    match m
    case HS256 => "HS256"
    case HS384 => "HS384"
    case HS512 => "HS512"
    case Foreign(name) => name
  }

  /** `jwt.GetSigningMethod` restricted to the HMAC family; None for any other name. */
  function GetSigningMethod(name: string): (r: Option<Method>)
    ensures r.Some? ==> !r.value.Foreign? && MethodName(r.value) == name
  {
    if name == "HS256" then Some(HS256)
    else if name == "HS384" then Some(HS384)
    else if name == "HS512" then Some(HS512)
    else None
  }

  /** Every HMAC method is found again under its own name. */
  lemma GetSigningMethodOfName(m: Method)
    requires !m.Foreign?
    ensures GetSigningMethod(MethodName(m)) == Some(m)
  {
  }

  /** A token after the library has split and decoded it, before any check:
      the method its header declares and its claims. */
  datatype RawToken = RawToken(alg: Method, claims: Claims)

  /** The library's verdict on a token's signature and time claims. */
  datatype Check = Valid | Invalid(reason: string)

  /** The JWT library, which this model does not see: decoding the compact form,
      verifying signature and expiry with a key at a given instant, and signing claims
      with a named method and a key. */
  datatype Library = Library(
    decode: string -> Result<RawToken, string>,
    verify: (string, Key, int) -> Check,
    sign: (string, Claims, Key) -> Result<string, string>)

  datatype ParseError =
    | HeaderEmpty
    | InvalidHeader
    | Malformed(reason: string)
    | InvalidSigningAlgorithm
    | Rejected(reason: string)

  /** The status text a parse error is reported with. */
  function Message(e: ParseError): string {
    match e
    case HeaderEmpty => "Auth header empty"
    case InvalidHeader => "Invalid auth header"
    case Malformed(reason) => reason
    case InvalidSigningAlgorithm => "Invalid signing algorithm"
    case Rejected(reason) => reason
  }

  const Bearer: string := "Bearer"

  /** The header checks of `parseToken`: not empty, and split at the first space into
      exactly `Bearer` and the token text. */
  function ParseHeader(header: string): (r: Result<string, ParseError>)
    ensures header == "" <==> r == Failure(HeaderEmpty)
    ensures r.Failure? ==> r.error == HeaderEmpty || r.error == InvalidHeader
    ensures r.Success? ==> header == Bearer + " " + r.value
  {
    if header == "" then Failure(HeaderEmpty)
    else
      var parts := SplitOnce(header, ' ');
      if !(|parts| == 2 && parts[0] == Bearer) then Failure(InvalidHeader)
      else Success(parts[1])
  }

  /** A header is accepted exactly when it is `Bearer`, one space, and anything at all
      (further spaces included) — and then that anything is the token text. */
  lemma ParseHeaderAcceptsBearer(header: string)
    ensures ParseHeader(header).Success? <==> |header| >= 7 && header[..7] == Bearer + " "
    ensures ParseHeader(header).Success? ==> ParseHeader(header).value == header[7..]
  {
    if |header| >= 7 && header[..7] == Bearer + " " {
      assert header == Bearer + [' '] + header[7..];
      SplitOnceOfJoin(Bearer, ' ', header[7..]);
    }
  }

  /** The key callback passed to the library: the key is released only when the token
      declares the very method the configuration names. */
  function KeyFor(c: Config, t: RawToken): (r: Result<Key, ParseError>)
    ensures r.Failure? ==> r.error == InvalidSigningAlgorithm
    ensures r.Success? ==> r.value == c.key
  {
    if GetSigningMethod(c.signingAlgorithm) != Some(t.alg) then Failure(InvalidSigningAlgorithm)
    else Success(c.key)
  }

  /** Anti-downgrade: the key is released iff the token's declared method is an HMAC
      method whose name equals the configured algorithm, so no other or weaker method
      is ever verified with the secret. */
  lemma KeyForIffSameAlgorithm(c: Config, t: RawToken)
    ensures KeyFor(c, t).Success? <==> !t.alg.Foreign? && MethodName(t.alg) == c.signingAlgorithm
  {
  }

  /** `parseToken`: header checks, then the library's decoding, the key callback and the
      library's signature and expiry verdict at instant `now`. */
  function ParseToken(c: Config, lib: Library, header: string, now: int): (r: Result<RawToken, ParseError>)
    ensures r.Success? <==>
      && ParseHeader(header).Success?
      && lib.decode(ParseHeader(header).value).Success?
      && KeyFor(c, lib.decode(ParseHeader(header).value).value).Success?
      && lib.verify(ParseHeader(header).value, c.key, now) == Valid
    ensures r.Success? ==> lib.decode(ParseHeader(header).value) == Success(r.value)
    ensures r.Failure? && ParseHeader(header).Failure? ==> r.error == ParseHeader(header).error
  {
    var text :- ParseHeader(header);
    var token :- lib.decode(text).MapFailure(reason => Malformed(reason));
    var key :- KeyFor(c, token);
    match lib.verify(text, key, now)
    case Valid => Success(token)
    case Invalid(reason) => Failure(Rejected(reason))
  }
}
