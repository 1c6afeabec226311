/**
 * The process-wide pool cache as an object: the local-tier map, the clock it
 * reads, and a record of the remote requests made so far.  Each method does
 * what the source does step by step and is tied to the function of the same
 * name in SubgraphProvider, whose properties are proved there.
 */
module PoolCacheState {

  import opened Wrappers
  import opened PoolCacheKeys
  import LocalCache
  import opened SubgraphProvider

  class PoolCache<P> {
    var entries: LocalCache.Entries<P>
    var now: int
    ghost var requests: seq<Request>

    /** An empty cache whose clock reads `start`. */
    constructor (start: int)
      ensures entries == map[] && now == start && requests == []
    {
      entries := map[];
      now := start;
      requests := [];
    }

    /** Time passes. */
    method Advance(dt: nat)
      modifies this`now
      ensures now == old(now) + dt
    {
      now := now + dt;
    }

    /** POOL_CACHE.get: the stored list while it is live. */
    method Get(key: string) returns (r: Option<seq<P>>)
      ensures r == LocalCache.Get(entries, key, now)
      ensures r.Some? ==> key in entries && r.value == entries[key].pools
    {
      if key in entries && now - entries[key].setAt < LocalCache.STD_TTL {
        r := Some(entries[key].pools);
      } else {
        r := None;
      }
    }

    /** POOL_CACHE.set: store `pools` under `key`, written now. */
    method Set(key: string, pools: seq<P>)
      modifies this`entries
      ensures entries == LocalCache.Set(old(entries), key, pools, now)
    {
      entries := entries[key := LocalCache.Entry(pools, now)];
    }

    /** cachePoolsFromS3: fetch, check the body, parse, and only then store. */
    method CachePoolsFromS3(env: Env<P>, bucket: string, baseKey: string, chainId: ChainId, protocol: Protocol)
      returns (r: Result<seq<P>, Error>)
      modifies this`entries, this`requests
      ensures var o := SubgraphProvider.CachePoolsFromS3(old(entries), now, env, bucket, baseKey, chainId, protocol);
              r == o.result && entries == o.entries && requests == old(requests) + o.requests
      ensures r.Failure? ==> entries == old(entries)
    {
      var key := env.poolCacheKey(baseKey, chainId, protocol);
      var request := Request(bucket, key);
      var response := env.getObject(request);
      requests := requests + [request];
      if response.Rejected? {
        return Failure(GetObjectFailed(request));
      }
      if response.body.None? {
        return Failure(NoBody(protocol));
      }
      var parsed := env.parse(response.body.value);
      if parsed.None? {
        return Failure(MalformedBody);
      }
      var pools := parsed.value;
      Set(LocalPoolCacheKey(chainId), pools);
      r := Success(pools);
    }

    /** getPools of provider `p`: serve a live entry, otherwise fetch through cachePoolsFromS3. */
    method GetPools(p: Provider, env: Env<P>) returns (r: Result<seq<P>, Error>)
      modifies this`entries, this`requests
      ensures var o := SubgraphProvider.GetPools(old(entries), now, env, p);
              r == o.result && entries == o.entries && requests == old(requests) + o.requests
      ensures LocalCache.Get(old(entries), LocalPoolCacheKey(p.chain), now).Some? ==>
                r == Success(LocalCache.Get(old(entries), LocalPoolCacheKey(p.chain), now).value)
                && entries == old(entries) && requests == old(requests)
    {
      var cachedPools := Get(LocalPoolCacheKey(p.chain));
      if cachedPools.Some? {
        return Success(cachedPools.value);
      }
      r := CachePoolsFromS3(env, p.bucket, p.baseKey, p.chain, p.protocol);
    }

    /** V3AWSSubgraphProvider.EagerBuild: warm the cache, then construct the provider. */
    method EagerBuildV3(env: Env<P>, bucket: string, baseKey: string, chainId: ChainId)
      returns (r: Result<Provider, Error>)
      modifies this`entries, this`requests
      ensures var o := SubgraphProvider.EagerBuildV3(old(entries), now, env, bucket, baseKey, chainId);
              r == o.result && entries == o.entries && requests == old(requests) + o.requests
    {
      var warmed := CachePoolsFromS3(env, bucket, baseKey, chainId, V3);
      if warmed.Failure? {
        return Failure(warmed.error);
      }
      r := Success(V3Provider(chainId, bucket, baseKey));
    }

    /** V2AWSSubgraphProvider.EagerBuild: warms with the V3 tag, then constructs a V2 provider. */
    method EagerBuildV2(env: Env<P>, bucket: string, baseKey: string, chainId: ChainId)
      returns (r: Result<Provider, Error>)
      modifies this`entries, this`requests
      ensures var o := SubgraphProvider.EagerBuildV2(old(entries), now, env, bucket, baseKey, chainId);
              r == o.result && entries == o.entries && requests == old(requests) + o.requests
      ensures r.Success? ==> r.value.protocol == V2
    {
      var warmed := CachePoolsFromS3(env, bucket, baseKey, chainId, V3);
      if warmed.Failure? {
        return Failure(warmed.error);
      }
      r := Success(V2Provider(chainId, bucket, baseKey));
    }
  }
}
