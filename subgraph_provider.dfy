/**
 * The lookup-or-fetch protocol of the subgraph pool providers, as functions
 * from the cache contents and the clock to an outcome: the result of the
 * call, the cache contents afterwards and the remote requests it made.
 *
 * The remote object store, the durable-key builder and the JSON parser are
 * not part of this model: they are the fields of an `Env` passed to every call.
 */
module SubgraphProvider {

  import opened Wrappers
  import opened PoolCacheKeys
  import opened LocalCache

  /** The raw bytes of a stored object. */
  type Body = seq<bv8>

  /** One getObject request to the remote store. */
  datatype Request = Request(bucket: string, key: string)

  /** The store either rejects the request or answers with an object whose body may be absent. */
  datatype Response = Rejected | Received(body: Option<Body>)

  datatype Error =
    | GetObjectFailed(request: Request)  // the getObject promise rejected
    | NoBody(protocol: Protocol)         // "Could not get subgraph pool cache from S3 for protocol ..."
    | MalformedBody                      // JSON.parse threw

  /** The collaborators of the core. */
  datatype Env<P> = Env(
    poolCacheKey: (string, ChainId, Protocol) -> string,  // the durable key of (baseKey, chainId, protocol)
    getObject: Request -> Response,                       // the remote store
    parse: Body -> Option<seq<P>>                         // UTF-8 decoding and JSON.parse; None when it throws
  )

  /** What one call yields, what the cache holds afterwards and which remote requests it made. */
  datatype Outcome<R, P> = Outcome(result: Result<R, Error>, entries: Entries<P>, requests: seq<Request>)

  /** A provider's fixed configuration. */
  datatype Provider = Provider(chain: ChainId, protocol: Protocol, bucket: string, baseKey: string)

  /** The provider the V3 subclass constructs. */
  function V3Provider(chainId: ChainId, bucket: string, baseKey: string): Provider {
    Provider(chainId, V3, bucket, baseKey)
  }

  /** The provider the V2 subclass constructs. */
  function V2Provider(chainId: ChainId, bucket: string, key: string): Provider {
    Provider(chainId, V2, bucket, key)
  }

  /** The request cachePoolsFromS3 sends for these arguments. */
  function DurableRequest<P>(env: Env<P>, bucket: string, baseKey: string, chainId: ChainId, protocol: Protocol): Request {
    Request(bucket, env.poolCacheKey(baseKey, chainId, protocol))
  }

  /**
   * cachePoolsFromS3: fetch the durable object, fail on an absent body or
   * a body that does not parse, and only then store the list under the
   * chain's local key.
   */
  function CachePoolsFromS3<P>(m: Entries<P>, now: int, env: Env<P>,
                               bucket: string, baseKey: string, chainId: ChainId, protocol: Protocol): (o: Outcome<seq<P>, P>)
    ensures o.requests == [DurableRequest(env, bucket, baseKey, chainId, protocol)]
  {
    var request := DurableRequest(env, bucket, baseKey, chainId, protocol);
    match env.getObject(request)
    case Rejected => Outcome(Failure(GetObjectFailed(request)), m, [request])
    case Received(None) => Outcome(Failure(NoBody(protocol)), m, [request])
    case Received(Some(body)) =>
      match env.parse(body)
      case None => Outcome(Failure(MalformedBody), m, [request])
      case Some(pools) => Outcome(Success(pools), Set(m, LocalPoolCacheKey(chainId), pools, now), [request])
  }

  /** getPools: the cached list on a hit, cachePoolsFromS3 on a miss. */
  function GetPools<P>(m: Entries<P>, now: int, env: Env<P>, p: Provider): Outcome<seq<P>, P> {
    match Get(m, LocalPoolCacheKey(p.chain), now)
    case Some(cached) => Outcome(Success(cached), m, [])
    case None => CachePoolsFromS3(m, now, env, p.bucket, p.baseKey, p.chain, p.protocol)
  }

  /** Warm the cache through `o`, then hand out `provider` if that succeeded. */
  function Warmed<P>(o: Outcome<seq<P>, P>, provider: Provider): Outcome<Provider, P> {
    match o.result
    case Success(_) => Outcome(Success(provider), o.entries, o.requests)
    case Failure(e) => Outcome(Failure(e), o.entries, o.requests)
  }

  /** V3AWSSubgraphProvider.EagerBuild. */
  function EagerBuildV3<P>(m: Entries<P>, now: int, env: Env<P>,
                           bucket: string, baseKey: string, chainId: ChainId): Outcome<Provider, P> {
    Warmed(CachePoolsFromS3(m, now, env, bucket, baseKey, chainId, V3), V3Provider(chainId, bucket, baseKey))
  }

  /** V2AWSSubgraphProvider.EagerBuild: it warms with the V3 tag, as the source does. */
  function EagerBuildV2<P>(m: Entries<P>, now: int, env: Env<P>,
                           bucket: string, baseKey: string, chainId: ChainId): Outcome<Provider, P> {
    Warmed(CachePoolsFromS3(m, now, env, bucket, baseKey, chainId, V3), V2Provider(chainId, bucket, baseKey))
  }

  // ---------------------------------------------------------------------
  // Properties of one call
  // ---------------------------------------------------------------------

  /** A hit returns exactly the stored list, makes no remote request and writes nothing. */
  lemma HitServesStoredList<P>(m: Entries<P>, now: int, env: Env<P>, p: Provider)
    requires LocalPoolCacheKey(p.chain) in m
    requires Live(m[LocalPoolCacheKey(p.chain)], now)
    ensures GetPools(m, now, env, p) == Outcome(Success(m[LocalPoolCacheKey(p.chain)].pools), m, [])
  {
  }

  /**
   * A call makes no remote request exactly when the chain's entry is
   * younger than STD_TTL, and otherwise exactly one, for the provider's
   * own durable key.
   */
  lemma FetchesIffExpired<P>(m: Entries<P>, now: int, env: Env<P>, p: Provider)
    ensures var key := LocalPoolCacheKey(p.chain);
            GetPools(m, now, env, p).requests ==
              if key in m && now - m[key].setAt < STD_TTL then []
              else [DurableRequest(env, p.bucket, p.baseKey, p.chain, p.protocol)]
  {
  }

  /** A call that fails leaves the cache as it was. */
  lemma FailureLeavesCacheUnchanged<P>(m: Entries<P>, now: int, env: Env<P>, p: Provider)
    requires GetPools(m, now, env, p).result.Failure?
    ensures GetPools(m, now, env, p).entries == m
  {
  }

  /** An object without a body is an error, never an empty list, and nothing is cached. */
  lemma NoBodyFails<P>(m: Entries<P>, now: int, env: Env<P>,
                       bucket: string, baseKey: string, chainId: ChainId, protocol: Protocol)
    requires env.getObject(DurableRequest(env, bucket, baseKey, chainId, protocol)) == Received(None)
    ensures CachePoolsFromS3(m, now, env, bucket, baseKey, chainId, protocol).result == Failure(NoBody(protocol))
    ensures CachePoolsFromS3(m, now, env, bucket, baseKey, chainId, protocol).entries == m
  {
  }

  /** A rejected getObject is an error, and nothing is cached. */
  lemma RejectedFetchFails<P>(m: Entries<P>, now: int, env: Env<P>,
                              bucket: string, baseKey: string, chainId: ChainId, protocol: Protocol)
    requires env.getObject(DurableRequest(env, bucket, baseKey, chainId, protocol)) == Rejected
    ensures CachePoolsFromS3(m, now, env, bucket, baseKey, chainId, protocol).result
              == Failure(GetObjectFailed(DurableRequest(env, bucket, baseKey, chainId, protocol)))
    ensures CachePoolsFromS3(m, now, env, bucket, baseKey, chainId, protocol).entries == m
  {
  }

  /** A body that does not parse is an error, and the write never happens. */
  lemma MalformedBodyFails<P>(m: Entries<P>, now: int, env: Env<P>,
                              bucket: string, baseKey: string, chainId: ChainId, protocol: Protocol, body: Body)
    requires env.getObject(DurableRequest(env, bucket, baseKey, chainId, protocol)) == Received(Some(body))
    requires env.parse(body) == None
    ensures CachePoolsFromS3(m, now, env, bucket, baseKey, chainId, protocol).result == Failure(MalformedBody)
    ensures CachePoolsFromS3(m, now, env, bucket, baseKey, chainId, protocol).entries == m
  {
  }

  /**
   * A successful fetch returns the parsed list and stores that same list,
   * written at `now`, under the chain's local key; no other key changes.
   */
  lemma SuccessStoresParsedList<P>(m: Entries<P>, now: int, env: Env<P>,
                                   bucket: string, baseKey: string, chainId: ChainId, protocol: Protocol,
                                   body: Body, pools: seq<P>)
    requires env.getObject(DurableRequest(env, bucket, baseKey, chainId, protocol)) == Received(Some(body))
    requires env.parse(body) == Some(pools)
    ensures var o := CachePoolsFromS3(m, now, env, bucket, baseKey, chainId, protocol);
            o.result == Success(pools) && o.entries == m[LocalPoolCacheKey(chainId) := Entry(pools, now)]
  {
  }

  /** A call for one chain never changes what another chain's lookups see. */
  lemma OtherChainsUntouched<P>(m: Entries<P>, now: int, env: Env<P>, p: Provider, c: ChainId, t: int)
    requires c != p.chain
    ensures Get(GetPools(m, now, env, p).entries, LocalPoolCacheKey(c), t) == Get(m, LocalPoolCacheKey(c), t)
  {
    LocalPoolCacheKeyInjective(c, p.chain);
  }

  // ---------------------------------------------------------------------
  // Properties of several calls
  // ---------------------------------------------------------------------

  /**
   * After a miss that succeeds at `now`, every call within the TTL from any
   * provider of the same chain, whatever its protocol and whatever the
   * store now holds, is a hit: it returns the same list and makes no request.
   */
  lemma SecondCallWithinTtlIsHit<P>(m: Entries<P>, now: int, env: Env<P>, p: Provider,
                                    t: int, env': Env<P>, q: Provider)
    requires Get(m, LocalPoolCacheKey(p.chain), now) == None
    requires GetPools(m, now, env, p).result.Success?
    requires q.chain == p.chain
    requires now <= t < now + STD_TTL
    ensures var o := GetPools(m, now, env, p);
            GetPools(o.entries, t, env', q) == Outcome(o.result, o.entries, [])
  {
  }

  /** Once the list written at `now` is STD_TTL old, the next call fetches exactly once again. */
  lemma ExpiredEntryRefetches<P>(m: Entries<P>, now: int, env: Env<P>, p: Provider, t: int, env': Env<P>)
    requires Get(m, LocalPoolCacheKey(p.chain), now) == None
    requires GetPools(m, now, env, p).result.Success?
    requires t >= now + STD_TTL
    ensures var o := GetPools(m, now, env, p);
            GetPools(o.entries, t, env', p)
              == CachePoolsFromS3(o.entries, t, env', p.bucket, p.baseKey, p.chain, p.protocol)
    ensures var o := GetPools(m, now, env, p);
            |GetPools(o.entries, t, env', p).requests| == 1
  {
  }

  /** A V3-tagged list cached for a chain is what a V2 provider of that chain is served. */
  lemma VariantsShareOneSlot<P>(m: Entries<P>, now: int, env: Env<P>, chainId: ChainId,
                                bucket: string, baseKey: string, bucket': string, key': string)
    requires Get(m, LocalPoolCacheKey(chainId), now) == None
    requires GetPools(m, now, env, V3Provider(chainId, bucket, baseKey)).result.Success?
    ensures var o := GetPools(m, now, env, V3Provider(chainId, bucket, baseKey));
            GetPools(o.entries, now, env, V2Provider(chainId, bucket', key')) == Outcome(o.result, o.entries, [])
  {
  }

  // ---------------------------------------------------------------------
  // Eager construction
  // ---------------------------------------------------------------------

  /**
   * EagerBuild (V3) succeeds exactly when the fetch and the parse succeed;
   * then the chain's slot holds the parsed list before the provider is
   * returned, and that provider's first getPools within the TTL is a hit.
   */
  lemma EagerBuildV3Warms<P>(m: Entries<P>, now: int, env: Env<P>, bucket: string, baseKey: string, chainId: ChainId,
                             t: int, env': Env<P>)
    requires now <= t < now + STD_TTL
    ensures var o := EagerBuildV3(m, now, env, bucket, baseKey, chainId);
            var f := CachePoolsFromS3(m, now, env, bucket, baseKey, chainId, V3);
            && o.requests == [DurableRequest(env, bucket, baseKey, chainId, V3)]
            && o.entries == f.entries
            && (o.result.Success? <==> f.result.Success?)
            && (o.result.Failure? ==> o.result.error == f.result.error && o.entries == m)
            && (o.result.Success? ==>
                  && o.result.value == V3Provider(chainId, bucket, baseKey)
                  && GetPools(o.entries, t, env', o.result.value) == Outcome(f.result, o.entries, []))
  {
  }

  /**
   * EagerBuild (V2) fetches the V3-tagged durable object yet returns a V2
   * provider: its effect on the cache and the store is that of the V3
   * EagerBuild, and the V2 provider is then served the V3-tagged list.
   */
  lemma EagerBuildV2UsesV3Tag<P>(m: Entries<P>, now: int, env: Env<P>, bucket: string, baseKey: string, chainId: ChainId,
                                 t: int, env': Env<P>)
    requires now <= t < now + STD_TTL
    ensures var o := EagerBuildV2(m, now, env, bucket, baseKey, chainId);
            var w := EagerBuildV3(m, now, env, bucket, baseKey, chainId);
            var f := CachePoolsFromS3(m, now, env, bucket, baseKey, chainId, V3);
            && o.requests == [DurableRequest(env, bucket, baseKey, chainId, V3)]
            && o.entries == w.entries && o.requests == w.requests
            && (o.result.Success? <==> w.result.Success?)
            && (o.result.Success? ==>
                  && o.result.value == V2Provider(chainId, bucket, baseKey)
                  && o.result.value.protocol == V2
                  && GetPools(o.entries, t, env', o.result.value) == Outcome(f.result, o.entries, []))
  {
  }

  // ---------------------------------------------------------------------
  // A run of calls
  // ---------------------------------------------------------------------

  /** The results, final cache and requests of one provider's getPools calls at the given instants, in order. */
  datatype Run<P> = Run(results: seq<Result<seq<P>, Error>>, entries: Entries<P>, requests: seq<Request>)

  function Serve<P>(m: Entries<P>, env: Env<P>, p: Provider, times: seq<int>): Run<P>
    decreases |times|
  {
    if times == [] then Run([], m, [])
    else
      var first := GetPools(m, times[0], env, p);
      var rest := Serve(first.entries, env, p, times[1..]);
      Run([first.result] + rest.results, rest.entries, first.requests + rest.requests)
  }

  /** Calls served from a live entry all return its list and cost nothing. */
  lemma {:induction false} ServeFromLiveEntry<P>(m: Entries<P>, env: Env<P>, p: Provider, times: seq<int>)
    requires LocalPoolCacheKey(p.chain) in m
    requires forall i :: 0 <= i < |times| ==> Live(m[LocalPoolCacheKey(p.chain)], times[i])
    ensures Serve(m, env, p, times).entries == m
    ensures Serve(m, env, p, times).requests == []
    ensures |Serve(m, env, p, times).results| == |times|
    ensures forall i :: 0 <= i < |times| ==>
              Serve(m, env, p, times).results[i] == Success(m[LocalPoolCacheKey(p.chain)].pools)
    decreases |times|
  {
    if times != [] {
      assert Live(m[LocalPoolCacheKey(p.chain)], times[0]);
      ServeFromLiveEntry(m, env, p, times[1..]);
      forall i | 1 <= i < |times|
        ensures Serve(m, env, p, times).results[i] == Success(m[LocalPoolCacheKey(p.chain)].pools)
      {
        assert times[1..][i - 1] == times[i];
      }
    }
  }

  /**
   * A burst of calls that starts with a successful miss and stays within
   * the TTL of it makes exactly one remote request, and every call returns
   * the list that request fetched.
   */
  lemma OneFetchPerTtlWindow<P>(m: Entries<P>, env: Env<P>, p: Provider, times: seq<int>)
    requires |times| >= 1
    requires Get(m, LocalPoolCacheKey(p.chain), times[0]) == None
    requires GetPools(m, times[0], env, p).result.Success?
    requires forall i :: 0 <= i < |times| ==> times[0] <= times[i] < times[0] + STD_TTL
    ensures var run := Serve(m, env, p, times);
            && run.requests == [DurableRequest(env, p.bucket, p.baseKey, p.chain, p.protocol)]
            && |run.results| == |times|
            && forall i :: 0 <= i < |times| ==> run.results[i] == GetPools(m, times[0], env, p).result
  {
    var first := GetPools(m, times[0], env, p);
    var key := LocalPoolCacheKey(p.chain);
    assert first.entries[key] == Entry(first.result.value, times[0]);
    forall i | 0 <= i < |times[1..]| ensures Live(first.entries[key], times[1..][i]) {
      assert times[1..][i] == times[i + 1];
    }
    ServeFromLiveEntry(first.entries, env, p, times[1..]);
  }
}
