/** Token claims: the map a token carries, the claims the login handler issues,
    the claims the refresh handler re-issues, and the refresh window that bounds
    how long a chain of refreshes can keep a session alive.
    Every instant and duration is a whole number of seconds. */
module Claims {
  import opened Wrappers

  /** A claim value as it comes out of a decoded token (JSON numbers are whole seconds here). */
  datatype Value = Str(s: string) | Num(n: int) | Bool(b: bool) | Null

  type Claims = map<string, Value>

  /** The claim names the middleware itself writes. */
  const Id: string := "id"
  const Exp: string := "exp"
  const OrigIat: string := "orig_iat"

  predicate Reserved(k: string) {
    k == Id || k == Exp || k == OrigIat
  }

  /** The claims carry a numeric `orig_iat`, as every token issued with refresh enabled does. */
  predicate HasOrigIat(c: Claims) {
    OrigIat in c && c[OrigIat].Num?
  }

  /** The `for key, value := range from { into[key] = value }` loop of both handlers:
      every key of `from` is written over `into`, other keys of `into` are kept. The result
      is exactly the right-biased union `into + from`, the step `LoginClaims` and
      `RefreshedClaims` take directly. */
  method CopyClaims(into: Claims, from: Claims) returns (r: Claims)
    ensures r == into + from
    ensures r.Keys == into.Keys + from.Keys
    ensures forall k :: k in from ==> r[k] == from[k]
    ensures forall k :: k in into && k !in from ==> r[k] == into[k]
  {
    r := into;
    var todo := from.Keys;
    while todo != {}
      invariant todo <= from.Keys
      invariant r.Keys == into.Keys + (from.Keys - todo)
      invariant forall k :: k in from && k !in todo ==> r[k] == from[k]
      invariant forall k :: k in into && k !in from ==> r[k] == into[k]
      decreases todo
    {
      var k :| k in todo;
      r := r[k := from[k]];
      todo := todo - {k};
    }
  }

  /** Claims of a freshly issued token: the payload first, then `id` and `exp`, and
      `orig_iat` only when refreshing is enabled (`maxRefresh != 0`). */
  function LoginClaims(payload: Claims, userId: string, now: int, timeout: int, maxRefresh: int): (c: Claims)
    ensures c.Keys == payload.Keys + {Id, Exp} + (if maxRefresh != 0 then {OrigIat} else {})
    ensures c[Id] == Str(userId)
    ensures c[Exp] == Num(now + timeout)
    ensures maxRefresh != 0 ==> c[OrigIat] == Num(now)
    ensures forall k :: k in payload && k != Id && k != Exp && (k != OrigIat || maxRefresh == 0) ==> c[k] == payload[k]
  {
    var stamped := (payload + map[Id := Str(userId)]) + map[Exp := Num(now + timeout)];
    if maxRefresh != 0 then stamped + map[OrigIat := Num(now)] else stamped
  }

  /** Reserved payload keys have no effect on a login token: the payload with them
      removed yields the same claims. (With refresh disabled a payload `orig_iat` survives.) */
  lemma LoginClaimsIgnoreReservedPayload(payload: Claims, userId: string, now: int, timeout: int, maxRefresh: int)
    ensures maxRefresh != 0 ==>
      LoginClaims(payload, userId, now, timeout, maxRefresh)
        == LoginClaims(payload - {Id, Exp, OrigIat}, userId, now, timeout, maxRefresh)
    ensures LoginClaims(payload, userId, now, timeout, maxRefresh)
        == LoginClaims(payload - {Id, Exp}, userId, now, timeout, maxRefresh)
  {
  }

  /** With refresh disabled and no `orig_iat` in the payload, a login token carries
      no `orig_iat`; with an empty payload it carries exactly `id` and `exp`. */
  lemma LoginWithoutRefreshHasNoOrigIat(payload: Claims, userId: string, now: int, timeout: int)
    requires OrigIat !in payload
    ensures !HasOrigIat(LoginClaims(payload, userId, now, timeout, 0))
    ensures payload == map[] ==> LoginClaims(payload, userId, now, timeout, 0).Keys == {Id, Exp}
  {
  }

  /** Claims of a refreshed token: every old claim is copied, `id` is re-written
      with the old value (a missing `id` becomes null, as Go's map lookup yields nil),
      `exp` is recomputed and `orig_iat` is written back as read. */
  function RefreshedClaims(prev: Claims, now: int, timeout: int, origIat: int): (c: Claims)
    ensures c.Keys == prev.Keys + {Id, Exp, OrigIat}
    ensures forall k :: k in prev && !Reserved(k) ==> c[k] == prev[k]
    ensures c[Id] == (if Id in prev then prev[Id] else Null)
    ensures c[Exp] == Num(now + timeout)
    ensures c[OrigIat] == Num(origIat)
  {
    var id := if Id in prev then prev[Id] else Null;
    prev + map[Id := id] + map[Exp := Num(now + timeout)] + map[OrigIat := Num(origIat)]
  }

  /** Refreshing twice with the same `orig_iat` is refreshing once, at the later time. */
  lemma RefreshedClaimsCompose(prev: Claims, now1: int, now2: int, timeout: int, origIat: int)
    ensures RefreshedClaims(RefreshedClaims(prev, now1, timeout, origIat), now2, timeout, origIat)
         == RefreshedClaims(prev, now2, timeout, origIat)
  {
  }

  /** The refresh handler's window test: refused exactly when `origIat < now - maxRefresh`. */
  predicate WindowOpen(origIat: int, now: int, maxRefresh: int) {
    !(origIat < now - maxRefresh)
  }

  /** The pure core of the refresh handler: window check, then the refreshed claims. */
  function RefreshStep(prev: Claims, now: int, timeout: int, maxRefresh: int): (r: Option<Claims>)
    requires HasOrigIat(prev)
    ensures r.Some? <==> now - maxRefresh <= prev[OrigIat].n
    ensures r.Some? ==> HasOrigIat(r.value) && r.value[OrigIat] == prev[OrigIat]
    ensures r.Some? ==> r.value.Keys == prev.Keys + {Id, Exp}
    ensures r.Some? ==> r.value[Exp] == Num(now + timeout)
    ensures r.Some? ==> r.value[Exp].n <= prev[OrigIat].n + maxRefresh + timeout
    ensures r.Some? ==> forall k :: k in prev && k != Exp ==> r.value[k] == prev[k]
  {
    var origIat := prev[OrigIat].n;
    if !WindowOpen(origIat, now, maxRefresh) then None
    else Some(RefreshedClaims(prev, now, timeout, origIat))
  }

  /** The window is inclusive: a token issued exactly `maxRefresh` seconds ago can be
      refreshed, one issued a second earlier cannot. */
  lemma RefreshWindowInclusive(prev: Claims, now: int, timeout: int, maxRefresh: int)
    requires HasOrigIat(prev)
    ensures prev[OrigIat].n == now - maxRefresh ==> RefreshStep(prev, now, timeout, maxRefresh).Some?
    ensures prev[OrigIat].n == now - maxRefresh - 1 ==> RefreshStep(prev, now, timeout, maxRefresh).None?
  {
  }

  /** A sequence of refreshes at the given instants, each on the previous result;
      None as soon as one is refused. */
  function RefreshChain(c: Claims, times: seq<int>, timeout: int, maxRefresh: int): (r: Option<Claims>)
    requires HasOrigIat(c)
    ensures r.Some? ==> HasOrigIat(r.value) && r.value[OrigIat] == c[OrigIat]
    ensures r.Some? && |times| > 0 ==> Exp in r.value && r.value[Exp].Num? && r.value[Exp].n <= c[OrigIat].n + maxRefresh + timeout
    ensures r.Some? && |times| == 0 ==> r.value == c
    decreases |times|
  {
    if |times| == 0 then Some(c)
    else
      match RefreshStep(c, times[0], timeout, maxRefresh)
      case None => None
      case Some(next) => RefreshChain(next, times[1..], timeout, maxRefresh)
  }

  /** However many refreshes follow a login with refresh enabled, the token never expires
      later than `maxRefresh + timeout` after the original login, and `orig_iat` stays the
      login instant. */
  lemma TokenLifetimeBound(
    payload: Claims, userId: string, issuedAt: int, times: seq<int>, timeout: int, maxRefresh: int)
    requires maxRefresh > 0
    ensures HasOrigIat(LoginClaims(payload, userId, issuedAt, timeout, maxRefresh))
    ensures var r := RefreshChain(LoginClaims(payload, userId, issuedAt, timeout, maxRefresh), times, timeout, maxRefresh);
            r.Some? ==> r.value[OrigIat] == Num(issuedAt) && Exp in r.value && r.value[Exp].Num?
                        && r.value[Exp].n <= issuedAt + maxRefresh + timeout
  {
  }
}
