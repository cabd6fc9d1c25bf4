/** The token cache of the Google identity authentifier.

    The authentifier keeps one record `{ token?, expiration }` and, on every
    token request, either reuses it (when it has not expired yet) or replaces
    it wholesale with a freshly fetched one. The clock and the identity
    provider are inputs: `now` is the clock reading taken when validity is
    checked, and a `Grant` carries the clock reading taken when the
    provider's answer arrived. */
module GoogleAuthentifier {
  import opened Errors

  /** The cached identity token and its absolute expiry, in milliseconds since the epoch. */
  datatype AuthorisationCache = AuthorisationCache(token: Option<string>, expiration: int)

  /** The identity provider's answer: a token, its lifetime in SECONDS, and the
      clock reading (milliseconds) when the answer was received. */
  datatype Grant = Grant(idToken: string, expiresIn: int, receivedAt: nat)

  /** The cache a newly constructed authentifier starts with: no token, expired at the epoch. */
  const InitialCache: AuthorisationCache := AuthorisationCache(None, 0)

  const MillisPerSecond: int := 1000

  /** The cache may be used at instant `now` only while its expiry lies strictly after `now`. */
  predicate IsCacheValid(cache: AuthorisationCache, now: nat)
  {
    cache.expiration > now
  }

  /** Turns the provider's answer into a cache record, converting the lifetime
      from seconds into an absolute expiry in milliseconds. A rejection is passed on. */
  function FetchAuthorisationData(reply: Result<Grant>): (r: Result<AuthorisationCache>)
    ensures r.Ok? <==> reply.Ok?
    ensures r.Err? ==> r.error == reply.error
    ensures r.Ok? ==> r.value.token == Some(reply.value.idToken)
    ensures r.Ok? ==> forall t: nat {:trigger IsCacheValid(r.value, t)} ::
      IsCacheValid(r.value, t) <==> t - reply.value.receivedAt < reply.value.expiresIn * MillisPerSecond
  {
    match reply
    case Err(e) => Err(e)
    case Ok(g) => Ok(AuthorisationCache(Some(g.idToken), g.receivedAt + g.expiresIn * MillisPerSecond))
  }

  /** The effect of one `ensureCacheValidity` call: the cache afterwards, whether
      the provider was asked, and the rejection it propagates, if any. */
  datatype Refresh = Refresh(cache: AuthorisationCache, fetched: bool, error: Option<Failure>)

  /** Keeps a valid cache without asking the provider; otherwise asks exactly once
      and replaces the whole cache with the answer. The assignment happens only
      after the answer arrives, so a rejection leaves the cache as it was. */
  function EnsureCacheValidity(cache: AuthorisationCache, now: nat, reply: Result<Grant>): (r: Refresh)
    ensures r.fetched <==> !IsCacheValid(cache, now)
    ensures !r.fetched ==> r.cache == cache && r.error == None
    ensures r.error.Some? <==> r.fetched && reply.Err?
    ensures r.error.Some? ==> r.cache == cache && r.error.value == reply.error
    ensures r.fetched && reply.Ok? ==> r.cache == FetchAuthorisationData(reply).value
  {
    if IsCacheValid(cache, now) then
      Refresh(cache, false, None)
    else
      match FetchAuthorisationData(reply)
      case Err(e) => Refresh(cache, true, Some(e))
      case Ok(renewed) => Refresh(renewed, true, None)
  }

  /** The effect of one `obtainAuthorisationToken` call. `token` is the cached
      token field as it is read, which TypeScript's `!` does not check at run time. */
  datatype Obtained = Obtained(cache: AuthorisationCache, fetched: bool, token: Result<Option<string>>)

  /** Makes the cache valid, then hands out its token; a provider rejection is propagated unchanged. */
  function ObtainAuthorisationToken(cache: AuthorisationCache, now: nat, reply: Result<Grant>): (r: Obtained)
    ensures r.token.Ok? ==> r.token.value == r.cache.token
    ensures r.token.Err? <==> !IsCacheValid(cache, now) && reply.Err?
    ensures r.token.Err? ==> r.cache == cache && r.token.error == reply.error
    ensures r.fetched <==> !IsCacheValid(cache, now)
    ensures IsCacheValid(cache, now) ==> r == Obtained(cache, false, Ok(cache.token))
  {
    var refreshed := EnsureCacheValidity(cache, now, reply);
    match refreshed.error
    case Some(e) => Obtained(refreshed.cache, refreshed.fetched, Err(e))
    case None => Obtained(refreshed.cache, refreshed.fetched, Ok(refreshed.cache.token))
  }

  /** The caches an authentifier can hold: the initial one, or one filled from a provider answer. */
  predicate Reachable(cache: AuthorisationCache)
  {
    cache == InitialCache || cache.token.Some?
  }

  /** The initial cache is expired at every instant, so the first token request must fetch. */
  lemma InitialCacheForcesFetch(now: nat, reply: Result<Grant>)
    ensures !IsCacheValid(InitialCache, now)
    ensures ObtainAuthorisationToken(InitialCache, now, reply).fetched
  {
  }

  /** Validity is strict: the cache is usable one millisecond before its expiry and not at it. */
  lemma ValidityBoundary(cache: AuthorisationCache)
    requires cache.expiration >= 1
    ensures IsCacheValid(cache, cache.expiration - 1)
    ensures !IsCacheValid(cache, cache.expiration)
  {
  }

  /** Expiry is final: a cache that is not valid at some instant is not valid at any
      later instant, so only a fetch can make it usable again. */
  lemma ExpiryIsFinal(cache: AuthorisationCache, now: nat, later: nat)
    requires now <= later
    ensures !IsCacheValid(cache, now) ==> !IsCacheValid(cache, later)
    ensures IsCacheValid(cache, later) ==> IsCacheValid(cache, now)
  {
  }

  /** The non-null assertion on the token is safe: from any reachable cache, a
      successful token request yields a token, and the cache stays reachable. */
  lemma TokenAlwaysPresent(cache: AuthorisationCache, now: nat, reply: Result<Grant>)
    requires Reachable(cache)
    ensures Reachable(ObtainAuthorisationToken(cache, now, reply).cache)
    ensures ObtainAuthorisationToken(cache, now, reply).token.Ok? ==>
      ObtainAuthorisationToken(cache, now, reply).token.value.Some?
  {
  }

  /** With a positive lifetime and a clock that has not gone back, a freshly fetched
      cache is valid at the instant of the request, so a second request at that instant
      does not fetch: two requests at the same instant cost at most one fetch. */
  lemma AtMostOneFetchPerInstant(cache: AuthorisationCache, now: nat, first: Result<Grant>, second: Result<Grant>)
    requires first.Ok? ==> first.value.expiresIn > 0 && first.value.receivedAt >= now
    requires ObtainAuthorisationToken(cache, now, first).token.Ok?
    ensures !ObtainAuthorisationToken(ObtainAuthorisationToken(cache, now, first).cache, now, second).fetched
  {
  }

  /** A rejection is not cached: the cache stays expired, so the next request asks again. */
  lemma RejectionIsRetried(cache: AuthorisationCache, now: nat, first: Result<Grant>, second: Result<Grant>)
    requires ObtainAuthorisationToken(cache, now, first).token.Err?
    ensures ObtainAuthorisationToken(ObtainAuthorisationToken(cache, now, first).cache, now, second).fetched
  {
  }

  /** Replacing an expired cache with a positive-lifetime answer received no earlier than
      the check moves the expiry strictly forward. */
  lemma ExpirationAdvances(cache: AuthorisationCache, now: nat, reply: Result<Grant>)
    requires reply.Ok? && reply.value.expiresIn > 0 && reply.value.receivedAt >= now
    ensures EnsureCacheValidity(cache, now, reply).cache.expiration > now
    ensures EnsureCacheValidity(cache, now, reply).fetched ==>
      EnsureCacheValidity(cache, now, reply).cache.expiration > cache.expiration
  {
  }

  /** One token request of a sequence: the clock reading and what the provider would answer if asked. */
  datatype Call = Call(now: nat, reply: Result<Grant>)

  /** The effect of a sequence of token requests: the final cache, how many times the
      provider was asked, and each request's outcome in order. */
  datatype SessionRun = SessionRun(cache: AuthorisationCache, fetches: nat, tokens: seq<Result<Option<string>>>)

  /** Runs token requests one after another on the shared cache (the source awaits each in turn). */
  function Session(cache: AuthorisationCache, calls: seq<Call>): (r: SessionRun)
    decreases |calls|
    ensures |r.tokens| == |calls|
    ensures r.fetches <= |calls|
    ensures Reachable(cache) ==> Reachable(r.cache)
    ensures Reachable(cache) ==> forall i :: 0 <= i < |r.tokens| && r.tokens[i].Ok? ==> r.tokens[i].value.Some?
  {
    if |calls| == 0 then
      SessionRun(cache, 0, [])
    else
      var first := ObtainAuthorisationToken(cache, calls[0].now, calls[0].reply);
      TokenAlwaysPresentIfReachable(cache, calls[0]);
      var rest := Session(first.cache, calls[1..]);
      SessionRun(rest.cache, (if first.fetched then 1 else 0) + rest.fetches, [first.token] + rest.tokens)
  }

  lemma TokenAlwaysPresentIfReachable(cache: AuthorisationCache, call: Call)
    ensures Reachable(cache) ==> Reachable(ObtainAuthorisationToken(cache, call.now, call.reply).cache)
    ensures Reachable(cache) && ObtainAuthorisationToken(cache, call.now, call.reply).token.Ok? ==>
      ObtainAuthorisationToken(cache, call.now, call.reply).token.value.Some?
  {
    if Reachable(cache) {
      TokenAlwaysPresent(cache, call.now, call.reply);
    }
  }

  /** While the cache stays valid at every request's instant, no request fetches,
      the cache never changes and every request gets the cached token. */
  lemma {:induction false} ValidCacheServesSession(cache: AuthorisationCache, calls: seq<Call>)
    requires forall i :: 0 <= i < |calls| ==> calls[i].now < cache.expiration
    ensures Session(cache, calls).fetches == 0
    ensures Session(cache, calls).cache == cache
    ensures forall i :: 0 <= i < |calls| ==> Session(cache, calls).tokens[i] == Ok(cache.token)
  {
    if |calls| > 0 {
      ValidCacheServesSession(cache, calls[1..]);
    }
  }

  /** An expired cache costs exactly one fetch for a whole run of requests, provided the
      first answer succeeds and every later request falls inside its lifetime; all
      requests then get the fetched token. */
  lemma {:induction false} OneFetchCoversLifetime(cache: AuthorisationCache, calls: seq<Call>)
    requires |calls| >= 1
    requires !IsCacheValid(cache, calls[0].now)
    requires calls[0].reply.Ok?
    requires forall i :: 1 <= i < |calls| ==>
      calls[i].now - calls[0].reply.value.receivedAt < calls[0].reply.value.expiresIn * MillisPerSecond
    ensures Session(cache, calls).fetches == 1
    ensures forall i :: 0 <= i < |calls| ==> Session(cache, calls).tokens[i] == Ok(Some(calls[0].reply.value.idToken))
  {
    var g := calls[0].reply.value;
    var renewed := AuthorisationCache(Some(g.idToken), g.receivedAt + g.expiresIn * MillisPerSecond);
    assert ObtainAuthorisationToken(cache, calls[0].now, calls[0].reply).cache == renewed;
    var rest := calls[1..];
    assert forall i :: 0 <= i < |rest| ==> rest[i].now < renewed.expiration by {
      forall i | 0 <= i < |rest|
        ensures rest[i].now < renewed.expiration
      {
        assert rest[i] == calls[i + 1];
      }
    }
    ValidCacheServesSession(renewed, rest);
  }
}
