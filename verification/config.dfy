/** The middleware's configuration and the start-up checks and defaults that
    `MiddlewareFunc` applies before it installs the gate. */
module Config {
  import opened Wrappers
  import opened Claims
  import opened Http

  type Key = seq<bv8>

  /** The configuration as the user fills it in; `None` stands for a nil key or an unset callback. */
  datatype Settings = Settings(
    realm: string,
    signingAlgorithm: string,
    key: Option<Key>,
    timeout: int,
    maxRefresh: int,
    authenticator: Option<(string, string) -> bool>,
    authorizator: Option<(string, Request) -> bool>,
    payloadFunc: Option<string -> Claims>)

  /** A configuration that passed the start-up checks, with every default filled in. */
  datatype Config = Config(
    realm: string,
    signingAlgorithm: string,
    key: Key,
    timeout: int,
    maxRefresh: int,
    authenticator: (string, string) -> bool,
    authorizator: (string, Request) -> bool,
    payloadFunc: Option<string -> Claims>)

  /** The fatal start-up errors, in the order they are checked. */
  datatype ConfigError = RealmRequired | KeyRequired | AuthenticatorRequired

  const DefaultAlgorithm: string := "HS256"
  const OneHour: int := 3600

  function AllowAll(userId: string, r: Request): bool {
    true
  }

  /** `MiddlewareFunc`'s checks: a missing realm, key or authenticator is fatal (the first
      one found is reported); the algorithm, timeout and authorizator get their defaults. */
  function Validate(s: Settings): (r: Result<Config, ConfigError>)
    ensures r.Failure? <==> s.realm == "" || s.key.None? || s.authenticator.None?
    ensures r.Failure? && s.realm == "" ==> r.error == RealmRequired
    ensures r.Failure? && s.realm != "" && s.key.Some? ==> r.error == AuthenticatorRequired
    ensures r.Failure? && s.realm != "" && s.key.None? ==> r.error == KeyRequired
    ensures r.Success? ==> r.value.realm == s.realm && r.value.realm != ""
    ensures r.Success? ==> r.value.signingAlgorithm == (if s.signingAlgorithm == "" then DefaultAlgorithm else s.signingAlgorithm)
    ensures r.Success? ==> r.value.signingAlgorithm != ""
    ensures r.Success? ==> Some(r.value.key) == s.key
    ensures r.Success? ==> r.value.timeout == (if s.timeout == 0 then OneHour else s.timeout) && r.value.timeout != 0
    ensures r.Success? ==> r.value.maxRefresh == s.maxRefresh
    ensures r.Success? ==> Some(r.value.authenticator) == s.authenticator
    ensures r.Success? && s.authorizator.Some? ==> r.value.authorizator == s.authorizator.value
    ensures r.Success? && s.authorizator.None? ==> forall u, q :: r.value.authorizator(u, q)
    ensures r.Success? ==> r.value.payloadFunc == s.payloadFunc
  {
    if s.realm == "" then Failure(RealmRequired)
    else if s.key.None? then Failure(KeyRequired)
    else if s.authenticator.None? then Failure(AuthenticatorRequired)
    else
      Success(Config(
        s.realm,
        if s.signingAlgorithm == "" then DefaultAlgorithm else s.signingAlgorithm,
        s.key.value,
        if s.timeout == 0 then OneHour else s.timeout,
        s.maxRefresh,
        s.authenticator.value,
        s.authorizator.GetOr(AllowAll),
        s.payloadFunc))
  }

  /** The settings a configuration was built from, had every field been given explicitly. */
  function AsSettings(c: Config): Settings {
    Settings(c.realm, c.signingAlgorithm, Some(c.key), c.timeout, c.maxRefresh,
             Some(c.authenticator), Some(c.authorizator), c.payloadFunc)
  }

  /** Applying the checks and defaults again changes nothing: `MiddlewareFunc` writes its
      defaults back into the struct, and a second call finds nothing left to fill in. */
  lemma ValidateIdempotent(s: Settings)
    requires Validate(s).Success?
    ensures Validate(AsSettings(Validate(s).value)) == Validate(s)
  {
  }
}
